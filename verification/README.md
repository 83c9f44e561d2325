# Stream keys and streams: a verified model

The service decides who may publish video. Broadcasters own stream keys; a media server asks the
service to authenticate a publisher by key, and reports when a stream becomes ready and when it
stops; administrators create and revoke keys and delete broadcasters. All of it meets in three
PostgreSQL tables, and several of the handlers are sequences of separate SQL statements that run
concurrently. This project models those handlers statement by statement and proves what their
interleavings can and cannot do.

## How it is built

- `Domain`, `Schema`, `Statements`: the rows, the constraints of the migration, and each SQL
  statement as a function on the tables.
- `Verdicts`: what one authentication decides, taken as a single step.
- `Protocol`: the transition system. Its state is the tables, the row locks, two nondecreasing
  clocks, every identifier drawn so far, and the program counter and local variables of each of an
  unbounded number of handlers. Any statement may fail before it takes effect, or take effect and
  lose its answer.
- `Evolution`, `Invariant`: how tables may change, and the invariant of every reachable state.
- `History`, `Occupancy`, `Progress`: safety over whole runs, the streams table as a plain map, and
  freedom from deadlock with a bound on work.
- `RevokeRaces`, `RecordedExpiry`: two promises of the documentation the code keeps only on a
  condition, with the exact conditions and the schedules that break them; and what the row lock is for.
- `Refinement`: the locked, multi-statement authentication is one atomic step, and recorded expiry
  is indistinguishable from the clock.
- `Calls`: a contract for each call, in terms of rows and without the functions the transition system
  is made of, that every step of the call's handler keeps in every run from the call's arrival on.
- `Alone`, `Database`, `Handlers`: the same handlers as imperative methods on mutable tables. Each
  method is proved equal to a specification function; lemmas in `Alone` prove that function to be
  what the transition system computes when the handler runs undisturbed.
- `Listing`, `MediaMtx`: the loops of the active listing and of kicking a path.
- `Base64Url`, `KeyText`, `SignedRequest`, `SignedLines`, `DriftWindow`: the texts the protocol depends on.

Assumptions. Statements follow READ COMMITTED as the PostgreSQL documentation describes it
(sections 13.2.1 and 13.3.2): each is atomic, `SELECT ... FOR UPDATE` returns the latest committed
row and holds its lock to the end of the transaction, updates and deletes of a key row and inserts
of a stream that refers to it wait for that lock, and a transaction's writes show after COMMIT.
NOW() is the time of BEGIN. UUIDs are never drawn twice. A handler's new UUID is drawn at its
insert, which is the first moment anything else can see it. Clocks do not run backwards.

## Where code and documentation differ

The model follows the code.

- The specification promises that revoking a key terminates any active stream on it. Revoke takes no
  lock, ready does not look at the key's status, and Revoke passes over a database error in ending the
  stream. Taken from Revoke's first statement on an active key, over every interleaving and every
  arrival other than a fitting ready webhook for the key: unless ending the stream hits a database
  error, Revoke returns with its key free exactly when no fitting ready webhook for it was under way
  (`RevokeRaces.RevokeLeavesFreeIffNoReady`); with that error allowed for, exactly when moreover the
  key had no active stream (`RevokeRaces.RevokeLeavesFreeDespiteErrorsIff`). Any fitting ready webhook
  that arrives before that first statement has run can leave a stream too
  (`RevokeRaces.ArrivingReadyLeavesStream`).
  `RevokeRaces.RevokeUnderRaces` says what holds regardless.
- The research notes mean the row lock to let only one activation through. Authentication records no
  stream, so a key is let in again until a stream is ready: `Verdicts.AdmissionReservesNothing`. The
  partial unique index still keeps active streams to one per key.
- The data model shows `expired` as final. A Revoke that found the key active before the expiry was
  recorded moves the key on to `revoked` (`RecordedExpiry.UnderwayRevokesExpired` is the schedule).
  Recorded expiry is final exactly when no such Revoke is under way
  (`RecordedExpiry.ExpiredIsFinalIff`); status never moves back (`History.StatusIsMonotone`).
- The data model wants `expires_at` in the future. Creation stores whatever it is given
  (`Alone.CreateAlone`).
- Revoke refuses a key whose expiry is recorded and accepts one whose expiry has merely passed, so
  it can tell the two apart. The machine in which keys expire by time alone therefore leaves that
  refusal open (`Refinement.MayRefuse`); authentication cannot tell.

## Model

| member | source | states |
|---|---|---|
| Refinement.AuthenticateIsAtomic | internal/service/auth.go:100-163 | every event of the concurrent system is a step, for that same event, of a machine in which Authenticate decides in one step, with the verdict and effect of the tables of one moment and clock readings taken during the call, and ends in an error only at a step of its own that went wrong |
| Refinement.AuthStepRefines | internal/service/auth.go:100-163 | which step of the transaction is that moment: the lock or the stream read for a refusal that writes nothing, COMMIT for the others; a step that goes well never ends in an error |
| Refinement.ExpiryIsTimeAlone | internal/service/auth.go:111-130 | every event is also a step of the machine where no expiry is ever recorded, with the same answers to every authentication |
| Refinement.DecisionByTimeAlone | internal/service/auth.go:117-130 | a verdict reached with recorded expiry is reached by the clock alone |
| Refinement.UnexpiredRun | internal/database/streamkey_repo.go:111-118 | no other statement can tell recorded expiry from unrecorded |
| Refinement.EveryRunRefines | internal/service/auth.go:76-170 | both refinements over whole runs of any interleaving, event by event |
| Refinement.AdmissionIsExclusive | internal/service/auth.go:132-153 | from the active-stream read through COMMIT, a key about to be let in is valid and has no active stream |
| Verdicts.AllowedIffValid | internal/service/auth.go:77-97 | a caller is let in exactly when its action is not "publish", or some row is active, not past expiry, without an active stream, and stored under the password, or with no password under the path without one leading slash |
| Verdicts.JudgeAndSettle | internal/service/auth.go:105-160 | each verdict is the one warranted by the action, the key presented, the rows and the clock, and records exactly the last use of the key let in or the expiry of the key presented |
| Verdicts.AdmissionReservesNothing | internal/service/auth.go:142-153 | after being let in, the same key is let in again exactly until its expiry time |
| Invariant.ReachableInv | internal/database/migrations/000001_initial_schema.up.sql:14-50 | every reachable state has foreign keys, unique key values, one active stream per key, ended iff ended_at, revoked iff revoked_at, path equal to key value, expired only past expiry, and locks owned by exactly the open transactions |
| Invariant.NextKeepsInv | internal/service/auth.go:100-163 | each event of each handler keeps all of that, and rows only evolve |
| Invariant.HeldRowIsUntouched | internal/service/auth.go:172-199 | while a transaction holds a key's lock, no other handler's step changes the key or gives it an active stream |
| Invariant.WaitsIffItWouldTouch | internal/service/auth.go:172-199 | a handler without a lock waits exactly while its next statement would touch a row that another has locked |
| Invariant.SparesOthersLocks | internal/database/migrations/000001_initial_schema.up.sql:31 | every statement that would touch a locked key waits, including the stream insert through its foreign key and the cascade |
| Statements.RunKeepsConstraints | internal/database/migrations/000001_initial_schema.up.sql:14-50 | the database's own constraints survive any statement with any arguments |
| Evolution.LegalRunEvolves | internal/database/streamkey_repo.go:111-128 | key rows keep identity and only move forward, stream rows only go from active to ended, used identifiers never name new rows |
| Evolution.LegalRunCoherent | internal/database/stream_repo.go:124-151 | the statements as the handlers issue them keep rows meaning what they say |
| Statements.OneActivePerPath | internal/database/stream_repo.go:71-79 | at most one active stream has a given path |
| Statements.EndByPathEndsOne | internal/database/stream_repo.go:144-161 | EndStreamByPath is EndStream of the one stream there, or nothing |
| History.StatusIsMonotone | internal/service/streamkey.go:126-169 | over every run status never moves back, revoked is absorbing, and a key past active keeps its last use |
| History.OutOfServiceForever | internal/service/auth.go:111-153 | once a key is revoked or gone, no later commit lets anyone in with it and last_used_at never changes, whatever was in flight |
| History.RevocationIsFinal | internal/service/streamkey.go:165-175 | the same from the moment any Revoke has succeeded |
| RecordedExpiry.ExpiredIsFinalIff | internal/service/streamkey.go:126-169 | a recorded expiry is never left, over every continuation and whatever arrives, if and only if no Revoke that found the key active is still under way |
| RecordedExpiry.UnderwayRevokesExpired | internal/service/streamkey.go:135-169 | from any state with such a Revoke, a schedule in which it takes the key to revoked |
| RecordedExpiry.RevokeMustWait | internal/service/auth.go:172-199 | were Revoke's write not to wait for the row lock, then whenever it is due while an Authenticate is about to read the same key past its expiry, some run leaves the key expired with revoked_at set |
| RecordedExpiry.ExpiryWriteIsSafeIffNotRevoked | internal/service/auth.go:122-130 | on a single row, the expiry write keeps status and revoked_at in agreement exactly when the row is not revoked |
| History.EndedIsFinal | internal/database/stream_repo.go:124-161 | an ended stream's row is never rewritten and a vanished one never returns |
| History.EndedOnce | internal/database/stream_repo.go:124-161 | in any run a stream is ended at most once, and exactly once if its surviving row went from active to ended |
| History.RacingEnders | internal/service/streamkey.go:156-162 | Revoke's and not-ready's end of one stream: the first succeeds, the second finds nothing, and either order gives the same tables up to the end time |
| History.PathsAgree | internal/handler/webhook.go:104-134 | in every reachable state rows and ready handlers past their lookup carry their key's value as path, and active paths are distinct |
| History.CascadeIsExact | internal/database/broadcaster_repo.go:117-131 | deletion removes exactly the broadcaster, its keys and their streams |
| History.DeletionIsFinal | internal/database/migrations/000001_initial_schema.up.sql:17 | after a deletion, in every continuation, its keys and any row referring to them never exist again |
| History.InFlightOnDeletedKey | internal/service/streamkey.go:126-175 | once a key is deleted, a Revoke of it at any point, or a ready webhook that had found it, changes no table in the whole of its remaining run under any interleaving, and if it returns it reports not found (or the database error) or has created nothing |
| History.RevokeEndsItsOwn | internal/service/streamkey.go:156-162 | under any interleaving Revoke's EndStream changes no key and no stream of another key, and nothing at all if its key has no active stream |
| Occupancy.StatementsKeepAccounts | internal/database/migrations/000001_initial_schema.up.sql:48-50 | each statement acts on the streams table as on a plain map from key to running stream; starts on occupied keys and ends on free ones are no-ops |
| Occupancy.RunKeepsAccounts | internal/handler/webhook.go:118-142 | the same over whole runs of any interleaving |
| Occupancy.StartsLessStops | internal/handler/webhook.go:172-173 | for every existing key, successful starts less successful ends is 0 or 1 and equals its active rows |
| RevokeRaces.RevokeUnderRaces | internal/service/streamkey.go:135-175 | under any interleaving, success means revoked or deleted; absent a database error in EndStream, the stream read is over and any stream active at return was inserted after the read |
| RevokeRaces.RevokeLeavesFreeIffNoReady | internal/service/streamkey.go:126-175 | from Revoke's first statement, over all schedules and all arrivals but fitting ready webhooks, every return without a database error in EndStream leaves the key free if and only if no fitting ready webhook for it was under way (or the key was not active, and Revoke is refused) |
| RevokeRaces.RevokeLeavesFreeDespiteErrorsIff | internal/service/streamkey.go:156-162 | the same with that database error allowed for: if and only if moreover the key had no active stream |
| RevokeRaces.ArrivingReadyLeavesStream | internal/handler/webhook.go:104-134 | any fitting ready webhook arriving before Revoke has run can start a stream that a successful Revoke leaves |
| RevokeRaces.ReadyCanInsert | internal/handler/webhook.go:104-134 | a fitting ready webhook under way on a free, unlocked key can complete and start a stream, whatever the key's status |
| Progress.NoDeadlock | internal/service/auth.go:100-163 | in every state of the invariant with an unfinished handler some handler can take a successful step |
| Progress.RunsAreBounded | internal/service/streamkey.go:125-176 | without arrivals, any run takes at most the total work left, whatever fails |
| Progress.StuckMeansReturned | internal/handler/webhook.go:83-151 | a run that cannot be extended is one in which every handler has returned |
| Progress.ReleaseLock | internal/service/auth.go:100-163 | a key's lock can be released by steps of its holder alone, which change no stream and no key's text |
| Progress.EveryoneCanReturn | internal/handler/webhook.go:153-191 | from every state of the invariant some schedule within the bound returns every handler |
| Calls.EveryCallConforms | internal/service/streamkey.go:62-87 | for every call, from its arrival on and in every interleaving: each step of its handler changes only the rows its contract names, with the call's own arguments, and answers as the rows at that moment and the step's outcome require |
| Calls.FineStepsGiveAVerdict | internal/service/auth.go:100-170 | under any interleaving an Authenticate whose own steps all go well never answers with an error, and once it has answered has given a verdict |
| Calls.ErrorsNeedTrouble | internal/service/streamkey.go:126-169 | any handler answers with a database error only after a step of its own that went wrong |
| Calls.CreatedAsAsked | internal/service/streamkey.go:62-87 | the key a creation returns, while it exists, has the owner and expiry time asked for, a creation time within the call and a text of the documented form |
| Calls.StartedAsAsked | internal/handler/webhook.go:104-134 | the stream a ready webhook created, while it exists, is on the key whose text is its path, with its own source, started within the call |
| Calls.RevokedAsAsked | internal/service/streamkey.go:126-175 | a revocation that reports success has revoked the key it was asked to, or that key is gone |
| Calls.DeletedAsAsked | internal/database/broadcaster_repo.go:117-131 | a deletion that reports success has removed the broadcaster it was asked to, with every key of it |
| Calls.ExpiryComes | internal/service/auth.go:122-130 | by the passing of time alone, a key with an expiry time comes to be refused as expired, unless revoked |
| Alone.AloneIsARun | internal/service/streamkey.go:125-176 | an undisturbed handler's computation is one of the system's schedules |
| Alone.AuthenticateAlone | internal/service/auth.go:76-170 | the statement-by-statement Authenticate undisturbed gives the one-step verdict and effect |
| Alone.RevokeAlone | internal/service/streamkey.go:125-176 | the statement-by-statement Revoke undisturbed gives its specification's tables and reply |
| Alone.RevokedIsExact | internal/service/streamkey.go:135-175 | undisturbed, a successful Revoke leaves the key revoked and free, ends exactly its active stream, and touches nothing else |
| Alone.ReadyAlone | internal/handler/webhook.go:83-151 | undisturbed, ready adds one row exactly for a known free key with fitting source columns, and otherwise nothing |
| Alone.NotReadyAlone | internal/handler/webhook.go:163-190 | undisturbed, not-ready ends the one stream at its path or finds none, and refuses an empty path |
| Alone.CreateAlone | internal/service/streamkey.go:62-87 | undisturbed, creation adds one active key unless its owner is missing or its text taken |
| Alone.ReadyThenNotReady | internal/handler/webhook.go:117-190 | ready then not-ready restores every existing row, leaves one ended stream, and frees the key |
| Handlers.Authenticate | internal/service/auth.go:76-170 | the caller is let in exactly when its action is not "publish" or some key admits it, any other action changes nothing, and verdict and tables are those warranted and recorded |
| Handlers.Revoke | internal/service/streamkey.go:125-176 | the method's reply and final tables are those of its specification, and the kicks go to exactly the RTMP connections and RTSP sessions on the key's path when it had a stream |
| Handlers.HandleReady | internal/handler/webhook.go:83-151 | a stream is created exactly when the specification opens one |
| Handlers.HandleNotReady | internal/handler/webhook.go:153-191 | exactly the one active stream at the path is ended |
| Handlers.CreateKey | internal/service/streamkey.go:62-87 | the stored key is found by its text and by nothing else's, matches the documented pattern, and is the only new row |
| Database.Db.DeleteBroadcaster | internal/database/broadcaster_repo.go:117-131 | the mutable tables end up as the cascade specifies, still valid |
| Database.Db.UpdateStatus | internal/database/streamkey_repo.go:111-128 | overwrites whatever the status was; not found iff no row |
| Database.Db.MarkExpired | internal/service/auth.go:122-127 | the expiry write, which keeps the tables valid unless the row is revoked |
| Database.Db.TouchLastUsed | internal/service/auth.go:142-146 | records the last use and keeps the tables valid |
| Database.Db.InsertKey | internal/database/streamkey_repo.go:27-50 | inserted exactly when every constraint admits it |
| Database.Db.InsertStream | internal/database/stream_repo.go:27-57 | inserted exactly when every constraint admits it |
| Database.Db.InsertBroadcaster | internal/database/broadcaster_repo.go:26-53 | inserted exactly when every constraint admits it |
| Database.Db.GetByKeyValue | internal/database/streamkey_repo.go:64-72 | finds the one row with that value, or none |
| Database.Db.GetActiveByStreamKeyID | internal/database/stream_repo.go:82-90 | finds the key's one active stream, or none |
| Database.Db.GetActiveByPath | internal/database/stream_repo.go:71-79 | finds the only active stream at the path, or there is none |
| Database.Db.EndStream | internal/database/stream_repo.go:124-141 | ends the row if active; otherwise not found and nothing changes |
| Database.Db.EndStreamByPath | internal/database/stream_repo.go:144-161 | changes at most the one row at the path; not found iff there is none |
| Listing.ListActiveRows | internal/database/stream_repo.go:93-121 | the appended rows are exactly the active streams, each once, newest first |
| Listing.ListActive | internal/service/stream.go:49-67 | the entries are exactly the active streams, each once, newest first, each with the addresses of its own path |
| Listing.OneRowPerRunningKey | internal/service/stream.go:49-67 | one row for each key with a running stream, none for another, no path twice |
| MediaMtx.MediaMtxClient.KickPath | internal/service/mediamtx.go:81-133 | the requests sent are, in list order, those for exactly the matching RTMP connections and then exactly the matching RTSP sessions, whichever kick or listing fails |
| MediaMtx.KicksForIsKicksOut | internal/service/mediamtx.go:88-130 | increasing positions in the two listings match the kicks to exactly the entries with that path and an id, kind by kind; a failed or empty listing adds none |
| MediaMtx.KicksExactlyTheMatching | internal/service/mediamtx.go:93-107 | the kicks of one listing correspond one to one, in order, to exactly its entries with that path and an id |
| Base64Url.DecodeEncode | internal/service/streamkey.go:185 | decoding inverts unpadded base64url (section 5 of RFC 4648) for byte strings of every length |
| Base64Url.DecodeIffEncode | internal/service/streamkey.go:185 | a text decodes to some bytes exactly when it is their encoding |
| Base64Url.EncodeIsSixBitsEach | internal/service/streamkey.go:185 | each character is the alphabet's sign (table 2 of RFC 4648) for the next six bits of the bytes, and there are no more characters than bits need |
| KeyText.GenerateStreamKey | internal/service/streamkey.go:178-186 | sk_ and 43 URL-safe characters that decode to the random bytes, within the column's width |
| KeyText.GeneratedInjective | internal/service/streamkey.go:178-186 | distinct random bytes give distinct keys |
| KeyText.EveryPresentationFindsTheKey | internal/service/auth.go:85-95 | password, path with or without leading slash, and ready's bare path all find the one row storing the key |
| SignedRequest.ParsePrint | internal/handler/middleware.go:131 | printing and parsing a timestamp is the identity over all of int64 |
| SignedRequest.ParsesExactly | internal/handler/middleware.go:131-143 | a header parses to a value exactly when it is a sign or none, zeros, and that value's digits, the sign agreeing; every other text and every value out of range is refused |
| SignedRequest.PrintParseNormalises | internal/handler/middleware.go:198-203 | what is signed is the canonical decimal of the header's value, equal to the header exactly when that is canonical |
| SignedRequest.SignAndZerosDropOut | internal/handler/middleware.go:131 | a plus sign and leading zeros do not change the value parsed |
| SignedRequest.RecoverableIffOneLine | internal/handler/middleware.go:198-203 | a request can be read back from its text to sign exactly when method and path are single lines |
| SignedRequest.DistinctRequestsSignDistinctText | internal/handler/middleware.go:198-203 | then distinct requests have distinct texts, for arbitrary bodies |
| SignedLines.AmbiguousIff | internal/handler/middleware.go:198-203 | a request with a method of one line shares its text with another such request if and only if a line of its path after the first, or of its body before the last, is the canonical decimal of an int64 |
| SignedRequest.NewlineInPathIsAmbiguous | internal/handler/middleware.go:198-203 | a concrete pair of requests for which that fails without the condition |
| DriftWindow.AcceptsExactlyTheWindowIff | internal/handler/middleware.go:147-149 | at any clock Go's Time can hold, acceptance is exactly a true difference of at most 300 seconds for every int64 timestamp, wrapping and saturation included, if and only if the clock is more than five minutes clear of the last second of Time and of its first 62,135,596,800 |

## Left out

- HTTP routing, JSON, RFC 9457 responses, logging, telemetry, configuration and migrations: no hard property.
- HMAC-SHA256 and hexadecimal encoding: only the text that is signed is modelled.
- Free-form metadata, recording references, created_at and updated_at of broadcasters, broadcaster updates and key listings: they take part in no decision.
- GetAndLockByKeyValue and UpdateLastUsed of internal/database/streamkey_repo.go: no wired service calls them.
- The connection pool's size: a handler waiting for a connection is not distinguished from one not yet scheduled.
- Rounding of Go's nanoseconds to PostgreSQL's microseconds: times are compared as given.
- Fairness: handlers can always finish, but a waiter can be overtaken any number of times by new arrivals.
- Handlers.Authenticate, Handlers.Revoke, Handlers.HandleReady, Handlers.HandleNotReady, Handlers.CreateKey: as methods they run with nothing in between and without database errors; interference and errors are the transition system's.
