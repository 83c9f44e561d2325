/** The listing of active streams, from the query's cursor to the answer with playback addresses. */
module Listing {
  import opened Domain
  import opened Schema
  import opened Statements
  import opened Database
  import opened MediaMtx
  import opened Occupancy

  /** A row as the query returns it. */
  datatype Row = Row(id: Uuid, stream: Stream)

  datatype Entry = Entry(row: Row, hls: string, webRtc: string)

  /** `rows` are the rows of `live`, each once, newest first. */
  ghost predicate Lists(t: Tables, live: set<Uuid>, rows: seq<Row>) {
    && (forall i :: 0 <= i < |rows| ==>
          rows[i].id in live && rows[i].id in t.streams && rows[i].stream == t.streams[rows[i].id])
    && (forall sid :: sid in live ==> exists i :: 0 <= i < |rows| && rows[i].id == sid)
    && (forall i, j :: 0 <= i < j < |rows| ==> rows[i].id != rows[j].id)
    && NewestFirst(rows)
  }

  ghost predicate NewestFirst(rows: seq<Row>) {
    forall i, j :: 0 <= i < j < |rows| ==> rows[i].stream.startedAt >= rows[j].stream.startedAt
  }

  function LiveIds(t: Tables): set<Uuid> {
    set sid | sid in t.streams && Live(t, sid)
  }

  lemma NewestExists(t: Tables, left: set<Uuid>) returns (sid: Uuid)
    requires left != {} && left <= t.streams.Keys
    ensures sid in left && forall x :: x in left ==> t.streams[x].startedAt <= t.streams[sid].startedAt
    decreases |left|
  {
    sid :| sid in left;
    var rest := left - {sid};
    assert forall x :: x in left ==> x == sid || x in rest;
    if rest != {} {
      var best := NewestExists(t, rest);
      if t.streams[best].startedAt > t.streams[sid].startedAt {
        sid := best;
      }
    }
  }

  /** rows.Next(): some newest row of those still to come (ORDER BY started_at DESC leaves the
      order of rows that started together open). */
  method NextRow(db: Db, left: set<Uuid>) returns (row: Row)
    requires left != {} && left <= db.streams.Keys
    ensures row.id in left && row.stream == db.streams[row.id]
    ensures forall x :: x in left ==> db.streams[x].startedAt <= row.stream.startedAt
  {
    ghost var newest := NewestExists(db.Snapshot(), left);
    assert newest in left && forall x :: x in left ==> db.streams[x].startedAt <= db.streams[newest].startedAt;
    var sid: Uuid :| sid in left && forall x :: x in left ==> db.streams[x].startedAt <= db.streams[sid].startedAt;
    row := Row(sid, db.streams[sid]);
  }

  /** StreamRepo.ListActive: appends the cursor's rows one by one. */
  method ListActiveRows(db: Db) returns (rows: seq<Row>)
    ensures Lists(db.Snapshot(), LiveIds(db.Snapshot()), rows)
  {
    ghost var t := db.Snapshot();
    var left := LiveIds(db.Snapshot());
    rows := [];
    while left != {}
      invariant left <= LiveIds(t)
      invariant Lists(t, LiveIds(t) - left, rows)
      invariant forall i, x :: 0 <= i < |rows| && x in left ==> t.streams[x].startedAt <= rows[i].stream.startedAt
      decreases left
    {
      var row := NextRow(db, left);
      ghost var was := rows;
      rows := rows + [row];
      ListsOneMore(t, LiveIds(t) - left, was, row);
      assert LiveIds(t) - (left - {row.id}) == LiveIds(t) - left + {row.id};
      left := left - {row.id};
    }
    assert LiveIds(t) - {} == LiveIds(t);
  }

  lemma ListsOneMore(t: Tables, listed: set<Uuid>, rows: seq<Row>, row: Row)
    requires Lists(t, listed, rows) && row.id !in listed && row.id in t.streams && row.stream == t.streams[row.id]
    requires forall i :: 0 <= i < |rows| ==> row.stream.startedAt <= rows[i].stream.startedAt
    ensures Lists(t, listed + {row.id}, rows + [row])
  {
    var all := rows + [row];
    forall sid | sid in listed + {row.id} ensures exists i :: 0 <= i < |all| && all[i].id == sid {
      if sid == row.id {
        assert all[|rows|].id == sid;
      } else {
        var i :| 0 <= i < |rows| && rows[i].id == sid;
        assert all[i].id == sid;
      }
    }
  }

  /** `entries` show the active streams of `streams`, each once, newest first. */
  ghost predicate Shows(streams: map<Uuid, Stream>, entries: seq<Entry>) {
    && (forall i :: 0 <= i < |entries| ==>
          && entries[i].row.id in streams && streams[entries[i].row.id].status == StreamActive
          && entries[i].row.stream == streams[entries[i].row.id])
    && (forall sid :: sid in streams && streams[sid].status == StreamActive ==>
          exists i :: 0 <= i < |entries| && entries[i].row.id == sid)
    && (forall i, j :: 0 <= i < j < |entries| ==>
          && entries[i].row.id != entries[j].row.id
          && entries[i].row.stream.startedAt >= entries[j].row.stream.startedAt)
  }

  lemma ListedIsShown(t: Tables, rows: seq<Row>, entries: seq<Entry>)
    requires Lists(t, LiveIds(t), rows) && |entries| == |rows|
    requires forall i :: 0 <= i < |rows| ==> entries[i].row == rows[i]
    ensures Shows(t.streams, entries)
  {
    forall sid | sid in t.streams && t.streams[sid].status == StreamActive
      ensures exists i :: 0 <= i < |entries| && entries[i].row.id == sid
    {
      assert sid in LiveIds(t);
      var i :| 0 <= i < |rows| && rows[i].id == sid;
      assert entries[i].row == rows[i];
    }
  }

  /** StreamService.ListActive: one entry per row, in the same order, each with the addresses of
      its own path. */
  method ListActive(db: Db, mediaMtx: MediaMtxClient) returns (entries: seq<Entry>)
    ensures exists rows: seq<Row> ::
              && Lists(db.Snapshot(), LiveIds(db.Snapshot()), rows)
              && |entries| == |rows|
              && forall i :: 0 <= i < |rows| ==> entries[i].row == rows[i]
    ensures Shows(db.streams, entries)
    ensures forall i :: 0 <= i < |entries| ==>
              && entries[i].hls == mediaMtx.publicUrl + "/" + entries[i].row.stream.path + "/index.m3u8"
              && entries[i].webRtc == mediaMtx.publicUrl + "/" + entries[i].row.stream.path + "/whep"
  {
    var rows := ListActiveRows(db);
    var result := new Entry[|rows|](_ => Entry(Row(0, Stream(0, "", StreamEnded, 0, None, None, None)), "", ""));
    for i := 0 to |rows|
      invariant forall j :: 0 <= j < i ==>
                  result[j] == Entry(rows[j], mediaMtx.HlsUrl(rows[j].stream.path), mediaMtx.WebRtcUrl(rows[j].stream.path))
    {
      var path := rows[i].stream.path;
      result[i] := Entry(rows[i], mediaMtx.HlsUrl(path), mediaMtx.WebRtcUrl(path));
    }
    entries := result[..];
    ListedIsShown(db.Snapshot(), rows, entries);
  }

  /** The listing agrees with the lifecycle: exactly one row for each key with a running stream,
      none for any other, and no two rows for one path. */
  lemma OneRowPerRunningKey(t: Tables, rows: seq<Row>)
    requires Constraints(t) && Coherent(t) && Lists(t, LiveIds(t), rows)
    ensures forall i :: 0 <= i < |rows| ==>
              && rows[i].stream.keyId in Current(t)
              && Current(t)[rows[i].stream.keyId] == rows[i].id
    ensures forall k :: k in Current(t) ==> exists i :: 0 <= i < |rows| && rows[i].stream.keyId == k
    ensures forall i, j :: 0 <= i < |rows| && 0 <= j < |rows| && rows[i].stream.keyId == rows[j].stream.keyId ==> i == j
    ensures forall i, j :: 0 <= i < |rows| && 0 <= j < |rows| && rows[i].stream.path == rows[j].stream.path ==> i == j
  {
    forall i | 0 <= i < |rows|
      ensures rows[i].stream.keyId in Current(t) && Current(t)[rows[i].stream.keyId] == rows[i].id
    {
      assert LiveFor(t, rows[i].id, rows[i].stream.keyId);
      CurrentIs(t, rows[i].stream.keyId, rows[i].id);
    }
    forall k | k in Current(t) ensures exists i :: 0 <= i < |rows| && rows[i].stream.keyId == k {
      CurrentIs(t, k, Current(t)[k]);
      assert Current(t)[k] in LiveIds(t);
    }
    forall i, j | 0 <= i < |rows| && 0 <= j < |rows| && rows[i].stream.path == rows[j].stream.path ensures i == j {
      OneActivePerPath(t, rows[i].id, rows[j].id, rows[i].stream.path);
    }
  }
}
