/** The entities of internal/domain: broadcasters, stream keys and streams.

    A row's identifier is the key of the map that holds the row, so the records carry every
    column but `id`.  Free-form JSON metadata and `recording_ref` take no part in any decision
    and are not columns here. */
module Domain {

  datatype Option<+T> = None | Some(value: T)

  type Uuid = nat

  /** A point in time, in an arbitrary unit. */
  type Instant = int

  datatype Broadcaster = Broadcaster(displayName: string)

  datatype KeyStatus = KeyActive | KeyExpired | KeyRevoked {
    /** The order in which a key may only ever move forward. */
    function Rank(): nat {
      match this
      case KeyActive => 0
      case KeyExpired => 1
      case KeyRevoked => 2
    }
  }

  datatype StreamKey = StreamKey(
    keyValue: string,
    broadcasterId: Uuid,
    status: KeyStatus,
    createdAt: Instant,
    expiresAt: Option<Instant>,
    revokedAt: Option<Instant>,
    lastUsedAt: Option<Instant>
  ) {
    /** The time `now` is strictly after the expiry time, if there is one. */
    predicate PastExpiry(now: Instant) {
      expiresAt.Some? && expiresAt.value < now
    }

    predicate IsValid(now: Instant) {
      status == KeyActive && !PastExpiry(now)
    }
  }

  datatype StreamStatus = StreamActive | StreamEnded

  datatype Stream = Stream(
    keyId: Uuid,
    path: string,
    status: StreamStatus,
    startedAt: Instant,
    endedAt: Option<Instant>,
    sourceType: Option<string>,
    sourceId: Option<string>
  ) {
    function EndedAt(at: Instant): Stream {
      this.(status := StreamEnded, endedAt := Some(at))
    }
  }
}
