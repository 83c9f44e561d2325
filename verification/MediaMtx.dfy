/** The client of the media server: kicking a path's connections, and playback addresses. */
module MediaMtx {
  import opened Domain

  /** An RTMP connection or RTSP session as listed; the server may leave either field out. */
  datatype Conn = Conn(id: Option<string>, path: Option<string>)

  /** What listing them gives: an error, an answer without items, or the items. */
  datatype Listing = Failed | Empty | Items(conns: seq<Conn>)

  datatype Kind = RtmpConn | RtspSession

  /** A request to kick the connection or session with this identifier. */
  datatype Kick = Kick(kind: Kind, id: string)

  predicate Matches(conn: Conn, path: string) {
    conn.path == Some(path) && conn.id.Some?
  }

  /** A kick for each entry at `path` that has an identifier, in list order. */
  function KicksAt(kind: Kind, conns: seq<Conn>, path: string): seq<Kick> {
    if conns == [] then []
    else
      var front, last := conns[..|conns| - 1], conns[|conns| - 1];
      KicksAt(kind, front, path) + if Matches(last, path) then [Kick(kind, last.id.value)] else []
  }

  function Listed(listing: Listing): seq<Conn> {
    if listing.Items? then listing.conns else []
  }

  /** Every kick that a call of KickPath requests. */
  function KicksFor(path: string, rtmp: Listing, rtsp: Listing): seq<Kick> {
    KicksAt(RtmpConn, Listed(rtmp), path) + KicksAt(RtspSession, Listed(rtsp), path)
  }

  /** Positions in `conns`, in increasing order. */
  predicate Increasing(at: seq<nat>, bound: nat) {
    && (forall j :: 0 <= j < |at| ==> at[j] < bound)
    && (forall j, j' :: 0 <= j < j' < |at| ==> at[j] < at[j'])
  }

  /** The kicks are those of exactly the matching entries: the j-th goes to the entry at position
      at[j], every matching entry has its position there, once, in list order, and no other has. */
  lemma {:induction false} KicksExactlyTheMatching(kind: Kind, conns: seq<Conn>, path: string) returns (at: seq<nat>)
    ensures Increasing(at, |conns|) && |at| == |KicksAt(kind, conns, path)|
    ensures forall j :: 0 <= j < |at| ==>
              && conns[at[j]].path == Some(path)
              && conns[at[j]].id.Some?
              && KicksAt(kind, conns, path)[j] == Kick(kind, conns[at[j]].id.value)
    ensures forall i :: 0 <= i < |conns| ==> (Matches(conns[i], path) <==> i in at)
    decreases |conns|
  {
    if conns == [] {
      at := [];
    } else {
      var n := |conns| - 1;
      var before := KicksExactlyTheMatching(kind, conns[..n], path);
      at := before + if Matches(conns[n], path) then [n] else [];
      forall i | 0 <= i < |conns| ensures Matches(conns[i], path) <==> i in at {
        assert i < n ==> conns[..n][i] == conns[i];
        assert i in at <==> i in before || (i == n && Matches(conns[n], path));
      }
    }
  }

  /** `kicks` go, in list order, to exactly those of the listed connections or sessions that are at
      `path` and have an identifier, and are all of one kind. */
  ghost predicate KicksOf(kicks: seq<Kick>, kind: Kind, conns: seq<Conn>, path: string) {
    exists at: seq<nat> ::
      && Increasing(at, |conns|) && |at| == |kicks|
      && (forall j :: 0 <= j < |at| ==>
            conns[at[j]].path == Some(path) && conns[at[j]].id == Some(kicks[j].id) && kicks[j].kind == kind)
      && (forall i :: 0 <= i < |conns| && conns[i].path == Some(path) && conns[i].id.Some? ==> i in at)
  }

  /** `kicks` are what a call of KickPath has to request: those of the RTMP connections first, then
      those of the RTSP sessions; a listing that failed or had no items adds none. */
  ghost predicate KicksOut(kicks: seq<Kick>, path: string, rtmp: Listing, rtsp: Listing) {
    exists n :: 0 <= n <= |kicks|
             && (if rtmp.Items? then KicksOf(kicks[..n], RtmpConn, rtmp.conns, path) else n == 0)
             && (if rtsp.Items? then KicksOf(kicks[n..], RtspSession, rtsp.conns, path) else n == |kicks|)
  }

  lemma KicksAtIsKicksOf(kind: Kind, conns: seq<Conn>, path: string)
    ensures KicksOf(KicksAt(kind, conns, path), kind, conns, path)
  {
    var at := KicksExactlyTheMatching(kind, conns, path);
    forall i | 0 <= i < |conns| && conns[i].path == Some(path) && conns[i].id.Some? ensures i in at {
      assert Matches(conns[i], path);
    }
  }

  lemma KicksForIsKicksOut(path: string, rtmp: Listing, rtsp: Listing)
    ensures KicksOut(KicksFor(path, rtmp, rtsp), path, rtmp, rtsp)
  {
    var first, second := KicksAt(RtmpConn, Listed(rtmp), path), KicksAt(RtspSession, Listed(rtsp), path);
    var kicks := KicksFor(path, rtmp, rtsp);
    assert kicks[..|first|] == first && kicks[|first|..] == second;
    KicksAtIsKicksOf(RtmpConn, Listed(rtmp), path);
    KicksAtIsKicksOf(RtspSession, Listed(rtsp), path);
  }

  lemma BothHalves(before: seq<Kick>, after: seq<Kick>, path: string, rtmp: Listing, rtsp: Listing)
    requires after == before + KicksAt(RtmpConn, Listed(rtmp), path) + KicksAt(RtspSession, Listed(rtsp), path)
    ensures after == before + KicksFor(path, rtmp, rtsp)
    ensures KicksOut(after[|before|..], path, rtmp, rtsp)
  {
    Appended(before, KicksAt(RtmpConn, Listed(rtmp), path), KicksAt(RtspSession, Listed(rtsp), path));
    KicksForIsKicksOut(path, rtmp, rtsp);
  }

  lemma Appended(before: seq<Kick>, first: seq<Kick>, second: seq<Kick>)
    ensures before + first + second == before + (first + second)
    ensures (before + first + second)[|before|..] == first + second
  {
  }

  lemma OneMoreKick(kind: Kind, conns: seq<Conn>, i: nat, path: string)
    requires i < |conns|
    ensures KicksAt(kind, conns[..i + 1], path)
            == KicksAt(kind, conns[..i], path) + if Matches(conns[i], path) then [Kick(kind, conns[i].id.value)] else []
  {
    assert conns[..i + 1][..i] == conns[..i];
  }

  /** `requests` is every kick sent to the server so far. */
  class MediaMtxClient {
    const publicUrl: string
    var requests: seq<Kick>

    constructor (publicUrl: string)
      ensures this.publicUrl == publicUrl && requests == []
    {
      this.publicUrl := publicUrl;
      requests := [];
    }

    /** Sends one kick; `answers` is how the server responds, and the caller only logs it. */
    method SendKick(kick: Kick, answers: Kick -> bool) returns (kicked: bool)
      modifies this
      ensures requests == old(requests) + [kick]
    {
      requests := requests + [kick];
      kicked := answers(kick);
    }

    /** Kicks whatever the two listings show at `path`, whichever listing or kick fails. */
    method KickPath(path: string, rtmp: Listing, rtsp: Listing, answers: Kick -> bool)
      modifies this
      ensures requests == old(requests) + KicksFor(path, rtmp, rtsp)
      ensures KicksOut(requests[|old(requests)|..], path, rtmp, rtsp)
    {
      if rtmp.Items? {
        for i := 0 to |rtmp.conns|
          invariant requests == old(requests) + KicksAt(RtmpConn, rtmp.conns[..i], path)
        {
          OneMoreKick(RtmpConn, rtmp.conns, i, path);
          var conn := rtmp.conns[i];
          if conn.path.Some? && conn.path.value == path && conn.id.Some? {
            var _ := SendKick(Kick(RtmpConn, conn.id.value), answers);
          }
        }
        assert rtmp.conns[..|rtmp.conns|] == rtmp.conns;
      }
      ghost var afterRtmp := requests;
      assert afterRtmp == old(requests) + KicksAt(RtmpConn, Listed(rtmp), path);
      if rtsp.Items? {
        for i := 0 to |rtsp.conns|
          invariant requests == afterRtmp + KicksAt(RtspSession, rtsp.conns[..i], path)
        {
          OneMoreKick(RtspSession, rtsp.conns, i, path);
          var session := rtsp.conns[i];
          if session.path.Some? && session.path.value == path && session.id.Some? {
            var _ := SendKick(Kick(RtspSession, session.id.value), answers);
          }
        }
        assert rtsp.conns[..|rtsp.conns|] == rtsp.conns;
      }
      BothHalves(old(requests), requests, path, rtmp, rtsp);
    }

    function HlsUrl(path: string): string {
      publicUrl + "/" + path + "/index.m3u8"
    }

    function WebRtcUrl(path: string): string {
      publicUrl + "/" + path + "/whep"
    }
  }
}
