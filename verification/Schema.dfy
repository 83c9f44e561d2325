/** The three tables of the initial migration, and the constraints PostgreSQL enforces on them. */
module Schema {
  import opened Domain

  const MAX_KEY_VALUE := 64
  const MAX_PATH := 255
  const MAX_SOURCE_TYPE := 50
  const MAX_SOURCE_ID := 255
  const MAX_DISPLAY_NAME := 255

  datatype Tables = Tables(
    broadcasters: map<Uuid, Broadcaster>,
    keys: map<Uuid, StreamKey>,
    streams: map<Uuid, Stream>
  )

  const EMPTY := Tables(map[], map[], map[])

  /** Row `sid` exists and is an active stream. */
  predicate Live(t: Tables, sid: Uuid) {
    sid in t.streams && t.streams[sid].status == StreamActive
  }

  predicate LiveFor(t: Tables, sid: Uuid, k: Uuid) {
    Live(t, sid) && t.streams[sid].keyId == k
  }

  predicate LiveAt(t: Tables, sid: Uuid, path: string) {
    Live(t, sid) && t.streams[sid].path == path
  }

  ghost predicate InUse(t: Tables, k: Uuid) {
    exists sid :: LiveFor(t, sid, k)
  }

  predicate SourceFits(sourceType: string, sourceId: string) {
    |sourceType| <= MAX_SOURCE_TYPE && |sourceId| <= MAX_SOURCE_ID
  }

  predicate StreamFits(row: Stream) {
    && |row.path| <= MAX_PATH
    && (row.sourceType.Some? ==> |row.sourceType.value| <= MAX_SOURCE_TYPE)
    && (row.sourceId.Some? ==> |row.sourceId.value| <= MAX_SOURCE_ID)
  }

  ghost predicate ForeignKeys(t: Tables) {
    && (forall k :: k in t.keys ==> t.keys[k].broadcasterId in t.broadcasters)
    && (forall sid :: sid in t.streams ==> t.streams[sid].keyId in t.keys)
  }

  ghost predicate UniqueKeyValues(t: Tables) {
    forall k, k' :: k in t.keys && k' in t.keys && t.keys[k].keyValue == t.keys[k'].keyValue ==> k == k'
  }

  /** The partial unique index on streams(stream_key_id) WHERE status = 'active'. */
  ghost predicate OneActivePerKey(t: Tables) {
    forall sid, sid' :: Live(t, sid) && Live(t, sid') && t.streams[sid].keyId == t.streams[sid'].keyId ==> sid == sid'
  }

  ghost predicate Widths(t: Tables) {
    && (forall k :: k in t.keys ==> |t.keys[k].keyValue| <= MAX_KEY_VALUE)
    && (forall sid :: sid in t.streams ==> StreamFits(t.streams[sid]))
    && (forall b :: b in t.broadcasters ==> |t.broadcasters[b].displayName| <= MAX_DISPLAY_NAME)
  }

  /** What the database itself guarantees, whoever writes to it. */
  ghost predicate Constraints(t: Tables) {
    ForeignKeys(t) && UniqueKeyValues(t) && OneActivePerKey(t) && Widths(t)
  }

  /** What only the application's protocol guarantees: the rows mean what they say. */
  ghost predicate Coherent(t: Tables) {
    && (forall sid :: sid in t.streams ==> (t.streams[sid].status == StreamEnded <==> t.streams[sid].endedAt.Some?))
    && (forall k :: k in t.keys ==> (t.keys[k].status == KeyRevoked <==> t.keys[k].revokedAt.Some?))
    && (forall sid :: sid in t.streams && t.streams[sid].keyId in t.keys
          ==> t.streams[sid].path == t.keys[t.streams[sid].keyId].keyValue)
  }

  /** `WHERE key_value = v`; UNIQUE makes the choice of row immaterial. */
  ghost function KeyByValue(t: Tables, v: string): Option<Uuid> {
    if k :| k in t.keys && t.keys[k].keyValue == v then Some(k) else None
  }

  /** `WHERE stream_key_id = k AND status = 'active'`. */
  ghost function StreamOfKey(t: Tables, k: Uuid): Option<Uuid> {
    if sid :| LiveFor(t, sid, k) then Some(sid) else None
  }

  /** `WHERE path = p AND status = 'active'`. */
  ghost function StreamAtPath(t: Tables, p: string): Option<Uuid> {
    if sid :| LiveAt(t, sid, p) then Some(sid) else None
  }
}
