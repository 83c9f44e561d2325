/** The SQL statements the repositories and the authentication transaction issue, as functions
    on the tables.  A statement is atomic: it either does all of its work or, when a constraint
    rejects it or no row matches, none. */
module Statements {
  import opened Domain
  import opened Schema

  datatype Statement =
    | InsertBroadcaster(id: Uuid, broadcaster: Broadcaster)
    | DeleteBroadcaster(id: Uuid)
    | InsertKey(id: Uuid, key: StreamKey)
    | MarkExpired(id: Uuid)
    | TouchLastUsed(id: Uuid, at: Instant)
    | UpdateStatus(id: Uuid, status: KeyStatus, revokedAt: Option<Instant>)
    | InsertStream(id: Uuid, stream: Stream)
    | EndStream(id: Uuid, at: Instant)
    | EndStreamByPath(path: string, at: Instant)

  /** Whether the repository call returns nil: an insert meets every constraint, an update or a
      delete touches at least one row. */
  ghost predicate Succeeds(t: Tables, st: Statement) {
    match st
    case InsertBroadcaster(id, b) =>
      id !in t.broadcasters && |b.displayName| <= MAX_DISPLAY_NAME
    case DeleteBroadcaster(id) =>
      id in t.broadcasters
    case InsertKey(id, key) =>
      && id !in t.keys
      && key.broadcasterId in t.broadcasters
      && |key.keyValue| <= MAX_KEY_VALUE
      && KeyByValue(t, key.keyValue) == None
    case MarkExpired(id) => id in t.keys
    case TouchLastUsed(id, _) => id in t.keys
    case UpdateStatus(id, _, _) => id in t.keys
    case InsertStream(id, row) =>
      && id !in t.streams
      && row.keyId in t.keys
      && (row.status == StreamActive ==> !InUse(t, row.keyId))
      && StreamFits(row)
    case EndStream(id, _) => Live(t, id)
    case EndStreamByPath(path, _) => exists sid :: LiveAt(t, sid, path)
  }

  /** The keys that ON DELETE CASCADE removes with broadcaster `b`. */
  predicate OwnedBy(t: Tables, k: Uuid, b: Uuid) {
    k in t.keys && t.keys[k].broadcasterId == b
  }

  function Cascade(t: Tables, b: Uuid): Tables {
    Tables(
      t.broadcasters - {b},
      map k | k in t.keys && !OwnedBy(t, k, b) :: t.keys[k],
      map sid | sid in t.streams && !OwnedBy(t, t.streams[sid].keyId, b) :: t.streams[sid])
  }

  function EndAllAt(t: Tables, path: string, at: Instant): Tables {
    t.(streams := map sid | sid in t.streams ::
         if LiveAt(t, sid, path) then t.streams[sid].EndedAt(at) else t.streams[sid])
  }

  ghost function Run(t: Tables, st: Statement): Tables {
    if !Succeeds(t, st) then t else
    match st
    case InsertBroadcaster(id, b) => t.(broadcasters := t.broadcasters[id := b])
    case DeleteBroadcaster(id) => Cascade(t, id)
    case InsertKey(id, key) => t.(keys := t.keys[id := key])
    case MarkExpired(id) => t.(keys := t.keys[id := t.keys[id].(status := KeyExpired)])
    case TouchLastUsed(id, at) => t.(keys := t.keys[id := t.keys[id].(lastUsedAt := Some(at))])
    case UpdateStatus(id, status, revokedAt) =>
      t.(keys := t.keys[id := t.keys[id].(status := status, revokedAt := revokedAt)])
    case InsertStream(id, row) => t.(streams := t.streams[id := row])
    case EndStream(id, at) => t.(streams := t.streams[id := t.streams[id].EndedAt(at)])
    case EndStreamByPath(path, at) => EndAllAt(t, path, at)
  }

  // ---------------------------------------------------------------- lookups

  lemma KeyByValueIs(t: Tables, k: Uuid)
    requires UniqueKeyValues(t) && k in t.keys
    ensures KeyByValue(t, t.keys[k].keyValue) == Some(k)
  {
    var found := KeyByValue(t, t.keys[k].keyValue);
    assert found.Some?;
  }

  lemma StreamOfKeyIs(t: Tables, sid: Uuid, k: Uuid)
    requires OneActivePerKey(t) && LiveFor(t, sid, k)
    ensures StreamOfKey(t, k) == Some(sid)
  {
    var found := StreamOfKey(t, k);
    assert found.Some? && LiveFor(t, found.value, k);
  }

  // ---------------------------------------------------------------- constraints

  /** Whatever statement is issued, with whatever arguments, the constraints survive. */
  lemma RunKeepsConstraints(t: Tables, st: Statement)
    requires Constraints(t)
    ensures Constraints(Run(t, st))
  {
    RunKeepsForeignKeys(t, st);
    RunKeepsUniqueKeyValues(t, st);
    RunKeepsIndex(t, st);
    RunKeepsWidths(t, st);
  }

  lemma RunKeepsForeignKeys(t: Tables, st: Statement)
    requires ForeignKeys(t)
    ensures ForeignKeys(Run(t, st))
  {
    var u := Run(t, st);
    if st.DeleteBroadcaster? {
      forall sid | sid in u.streams ensures u.streams[sid].keyId in u.keys {
        assert t.streams[sid].keyId in t.keys;
      }
    }
  }

  lemma RunKeepsUniqueKeyValues(t: Tables, st: Statement)
    requires UniqueKeyValues(t)
    ensures UniqueKeyValues(Run(t, st))
  {
    var u := Run(t, st);
    if st.InsertKey? && Succeeds(t, st) {
      assert forall k :: k in t.keys ==> t.keys[k].keyValue != st.key.keyValue;
    } else {
      assert forall k :: k in u.keys ==> k in t.keys && u.keys[k].keyValue == t.keys[k].keyValue;
    }
  }

  lemma RunKeepsIndex(t: Tables, st: Statement)
    requires OneActivePerKey(t)
    ensures OneActivePerKey(Run(t, st))
  {
    if st.InsertStream? && Succeeds(t, st) {
      InsertKeepsIndex(t, st.id, st.stream);
    } else {
      var u := Run(t, st);
      assert forall sid :: Live(u, sid) ==> Live(t, sid) && u.streams[sid] == t.streams[sid];
    }
  }

  lemma RunKeepsWidths(t: Tables, st: Statement)
    requires Widths(t)
    ensures Widths(Run(t, st))
  {
    var u := Run(t, st);
    if st.EndStream? || st.EndStreamByPath? || st.DeleteBroadcaster? {
      assert forall sid :: sid in u.streams ==> sid in t.streams && StreamFits(t.streams[sid]);
    }
  }

  lemma InsertKeepsIndex(t: Tables, id: Uuid, row: Stream)
    requires OneActivePerKey(t) && Succeeds(t, InsertStream(id, row))
    ensures OneActivePerKey(Run(t, InsertStream(id, row)))
  {
    var u := Run(t, InsertStream(id, row));
    forall a, b | Live(u, a) && Live(u, b) && u.streams[a].keyId == u.streams[b].keyId ensures a == b {
      if a != id { assert LiveFor(t, a, t.streams[a].keyId); }
      if b != id { assert LiveFor(t, b, t.streams[b].keyId); }
    }
  }

  lemma MarkingTwice(t: Tables, k: Uuid)
    requires k in t.keys && t.keys[k].status == KeyExpired
    ensures Run(t, MarkExpired(k)) == t
  {
    assert t.keys[k := t.keys[k].(status := KeyExpired)] == t.keys;
  }

  // ---------------------------------------------------------------- one stream per path

  /** Because paths are key values and key values are unique, a path names at most one active
      stream: GetActiveByPath has at most one row to return, EndStreamByPath at most one to end. */
  lemma OneActivePerPath(t: Tables, a: Uuid, b: Uuid, path: string)
    requires Constraints(t) && Coherent(t)
    requires LiveAt(t, a, path) && LiveAt(t, b, path)
    ensures a == b
  {
    var ka, kb := t.streams[a].keyId, t.streams[b].keyId;
    assert ka in t.keys && kb in t.keys;
  }

  /** EndStreamByPath(p) is EndStream of the one stream at p, or nothing. */
  lemma EndByPathEndsOne(t: Tables, path: string, at: Instant)
    requires Constraints(t) && Coherent(t)
    ensures match StreamAtPath(t, path)
            case None => !Succeeds(t, EndStreamByPath(path, at))
            case Some(sid) =>
              && Succeeds(t, EndStreamByPath(path, at))
              && Succeeds(t, EndStream(sid, at))
              && Run(t, EndStreamByPath(path, at)) == Run(t, EndStream(sid, at))
  {
    match StreamAtPath(t, path)
    case None =>
    case Some(sid) =>
      forall x | LiveAt(t, x, path) ensures x == sid {
        OneActivePerPath(t, x, sid, path);
      }
      EndAllOfOne(t, sid, path, at);
  }

  /** What the statement leaves behind, and whether it found a row, told from the one at the path. */
  lemma EndByPathOutcome(t: Tables, path: string, at: Instant)
    requires Constraints(t) && Coherent(t)
    ensures Run(t, EndStreamByPath(path, at)) == EndAllAt(t, path, at)
    ensures Succeeds(t, EndStreamByPath(path, at)) <==> StreamAtPath(t, path).Some?
    ensures EndAllAt(t, path, at).streams ==
            match StreamAtPath(t, path)
            case None => t.streams
            case Some(sid) => t.streams[sid := t.streams[sid].EndedAt(at)]
  {
    EndByPathEndsOne(t, path, at);
    if StreamAtPath(t, path) == None {
      assert EndAllAt(t, path, at).streams == t.streams;
    }
  }

  lemma EndAllOfOne(t: Tables, sid: Uuid, path: string, at: Instant)
    requires LiveAt(t, sid, path)
    requires forall x :: LiveAt(t, x, path) ==> x == sid
    ensures EndAllAt(t, path, at).streams == t.streams[sid := t.streams[sid].EndedAt(at)]
  {
  }

  /** An active stream is found by its path. */
  lemma StreamAtPathIs(t: Tables, sid: Uuid)
    requires Constraints(t) && Coherent(t) && Live(t, sid)
    ensures StreamAtPath(t, t.streams[sid].path) == Some(sid)
  {
    var path := t.streams[sid].path;
    assert LiveAt(t, sid, path);
    OneActivePerPath(t, StreamAtPath(t, path).value, sid, path);
  }
}
