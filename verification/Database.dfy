/** The repositories: the three tables as mutable state, one method per SQL statement. */
module Database {
  import opened Domain
  import opened Schema
  import opened Statements
  import opened Evolution

  datatype Result = Ok | ErrNotFound | ErrConstraint

  class Db {
    var broadcasters: map<Uuid, Broadcaster>
    var keys: map<Uuid, StreamKey>
    var streams: map<Uuid, Stream>

    function Snapshot(): Tables
      reads this
    {
      Tables(broadcasters, keys, streams)
    }

    ghost predicate Valid()
      reads this
    {
      Constraints(Snapshot()) && Coherent(Snapshot())
    }

    constructor ()
      ensures Valid() && Snapshot() == EMPTY
    {
      broadcasters, keys, streams := map[], map[], map[];
    }

    // -------------------------------------------------------------- broadcasters

    method InsertBroadcaster(id: Uuid, row: Broadcaster) returns (r: Result)
      requires Valid()
      modifies this`broadcasters
      ensures Valid() && Snapshot() == Run(old(Snapshot()), Statement.InsertBroadcaster(id, row))
      ensures r == if old(Succeeds(Snapshot(), Statement.InsertBroadcaster(id, row))) then Ok else ErrConstraint
    {
      RunKeepsConstraints(Snapshot(), Statement.InsertBroadcaster(id, row));
      if id in broadcasters || |row.displayName| > MAX_DISPLAY_NAME {
        return ErrConstraint;
      }
      broadcasters := broadcasters[id := row];
      r := Ok;
    }

    /** ON DELETE CASCADE takes the broadcaster's keys and, with them, their streams. */
    method DeleteBroadcaster(id: Uuid) returns (r: Result)
      requires Valid()
      modifies this
      ensures Valid() && Snapshot() == Run(old(Snapshot()), Statement.DeleteBroadcaster(id))
      ensures r == if id in old(broadcasters) then Ok else ErrNotFound
    {
      ghost var before := Snapshot();
      RemovalKeepsTables(before, Statement.DeleteBroadcaster(id));
      if id !in broadcasters {
        return ErrNotFound;
      }
      var after := Cascade(Snapshot(), id);
      broadcasters, keys, streams := after.broadcasters, after.keys, after.streams;
      r := Ok;
    }

    // -------------------------------------------------------------- stream keys

    method InsertKey(id: Uuid, key: StreamKey) returns (r: Result)
      requires Valid()
      modifies this`keys
      ensures Constraints(Snapshot())
      ensures (key.status == KeyRevoked <==> key.revokedAt.Some?) ==> Valid()
      ensures Snapshot() == Run(old(Snapshot()), Statement.InsertKey(id, key))
      ensures r == if old(Succeeds(Snapshot(), Statement.InsertKey(id, key))) then Ok else ErrConstraint
    {
      RunKeepsConstraints(Snapshot(), Statement.InsertKey(id, key));
      assert forall sid :: sid in streams ==> streams[sid].keyId in keys;
      if id in keys || key.broadcasterId !in broadcasters || |key.keyValue| > MAX_KEY_VALUE
         || exists k :: k in keys && keys[k].keyValue == key.keyValue {
        return ErrConstraint;
      }
      keys := keys[id := key];
      r := Ok;
    }

    method GetByKeyValue(keyValue: string) returns (k: Option<Uuid>)
      requires Valid()
      ensures k == KeyByValue(Snapshot(), keyValue)
    {
      if found: Uuid :| found in keys && keys[found].keyValue == keyValue {
        KeyByValueIs(Snapshot(), found);
        k := Some(found);
      } else {
        k := None;
      }
    }

    /** Unconditional: whatever the status was. */
    method UpdateStatus(id: Uuid, status: KeyStatus, revokedAt: Option<Instant>) returns (r: Result)
      requires Valid()
      modifies this`keys
      ensures Constraints(Snapshot())
      ensures (status == KeyRevoked <==> revokedAt.Some?) ==> Valid()
      ensures Snapshot() == Run(old(Snapshot()), Statement.UpdateStatus(id, status, revokedAt))
      ensures r == if id in old(keys) then Ok else ErrNotFound
    {
      RunKeepsConstraints(Snapshot(), Statement.UpdateStatus(id, status, revokedAt));
      if id !in keys {
        return ErrNotFound;
      }
      keys := keys[id := keys[id].(status := status, revokedAt := revokedAt)];
      r := Ok;
    }

    method MarkExpired(id: Uuid)
      requires Valid()
      modifies this`keys
      ensures Constraints(Snapshot())
      ensures (id in old(keys) ==> old(keys)[id].status != KeyRevoked) ==> Valid()
      ensures Snapshot() == Run(old(Snapshot()), Statement.MarkExpired(id))
    {
      RunKeepsConstraints(Snapshot(), Statement.MarkExpired(id));
      if id in keys {
        keys := keys[id := keys[id].(status := KeyExpired)];
      }
    }

    method TouchLastUsed(id: Uuid, at: Instant)
      requires Valid()
      modifies this`keys
      ensures Valid() && Snapshot() == Run(old(Snapshot()), Statement.TouchLastUsed(id, at))
    {
      RunKeepsConstraints(Snapshot(), Statement.TouchLastUsed(id, at));
      if id in keys {
        keys := keys[id := keys[id].(lastUsedAt := Some(at))];
      }
    }

    // -------------------------------------------------------------- streams

    method InsertStream(id: Uuid, row: Stream) returns (r: Result)
      requires Valid()
      modifies this`streams
      ensures Constraints(Snapshot())
      ensures (row.status == StreamEnded <==> row.endedAt.Some?) ==>
                (row.keyId in keys ==> row.path == keys[row.keyId].keyValue) ==> Valid()
      ensures Snapshot() == Run(old(Snapshot()), Statement.InsertStream(id, row))
      ensures r == if old(Succeeds(Snapshot(), Statement.InsertStream(id, row))) then Ok else ErrConstraint
    {
      ghost var before := Snapshot();
      RunKeepsConstraints(before, Statement.InsertStream(id, row));
      if (row.status == StreamEnded <==> row.endedAt.Some?)
         && (row.keyId in keys ==> row.path == keys[row.keyId].keyValue) {
        InsertKeepsTables(before, id, row);
      }
      var taken := exists sid :: sid in streams && LiveFor(Snapshot(), sid, row.keyId);
      if id in streams || row.keyId !in keys || !StreamFits(row) || (row.status == StreamActive && taken) {
        return ErrConstraint;
      }
      streams := streams[id := row];
      r := Ok;
    }

    method GetActiveByStreamKeyID(k: Uuid) returns (sid: Option<Uuid>)
      requires Valid()
      ensures sid == StreamOfKey(Snapshot(), k)
    {
      if found: Uuid :| found in streams && LiveFor(Snapshot(), found, k) {
        StreamOfKeyIs(Snapshot(), found, k);
        sid := Some(found);
      } else {
        sid := None;
      }
    }

    /** At most one row can match, because an active path belongs to one key and one stream. */
    method GetActiveByPath(path: string) returns (sid: Option<Uuid>)
      requires Valid()
      ensures match sid
              case None => forall x :: !LiveAt(Snapshot(), x, path)
              case Some(found) => LiveAt(Snapshot(), found, path) && forall x :: LiveAt(Snapshot(), x, path) ==> x == found
    {
      if found: Uuid :| found in streams && LiveAt(Snapshot(), found, path) {
        forall x | LiveAt(Snapshot(), x, path) ensures x == found {
          OneActivePerPath(Snapshot(), x, found, path);
        }
        sid := Some(found);
      } else {
        sid := None;
      }
    }

    method EndStream(id: Uuid, now: Instant) returns (r: Result)
      requires Valid()
      modifies this`streams
      ensures Valid() && Snapshot() == Run(old(Snapshot()), Statement.EndStream(id, now))
      ensures r == if old(Live(Snapshot(), id)) then Ok else ErrNotFound
    {
      RemovalKeepsTables(Snapshot(), Statement.EndStream(id, now));
      if !Live(Snapshot(), id) {
        return ErrNotFound;
      }
      streams := streams[id := streams[id].EndedAt(now)];
      r := Ok;
    }

    /** Ends every active row at the path; there is at most one, and no other row changes. */
    method EndStreamByPath(path: string, now: Instant) returns (r: Result)
      requires Valid()
      modifies this`streams
      ensures Valid() && Snapshot() == Run(old(Snapshot()), Statement.EndStreamByPath(path, now))
      ensures match old(StreamAtPath(Snapshot(), path))
              case None => r == ErrNotFound && streams == old(streams)
              case Some(sid) => r == Ok && streams == old(streams)[sid := old(streams)[sid].EndedAt(now)]
    {
      ghost var before := Snapshot();
      RemovalKeepsTables(before, Statement.EndStreamByPath(path, now));
      EndByPathOutcome(before, path, now);
      var hit := exists sid :: sid in streams && LiveAt(Snapshot(), sid, path);
      streams := EndAllAt(Snapshot(), path, now).streams;
      assert Snapshot() == EndAllAt(before, path, now);
      r := if hit then Ok else ErrNotFound;
    }
  }
}
