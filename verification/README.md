# Reliable message delivery: a verified model

This project models the delivery core of a single-chat instant-messaging server, and the parts of
its C++ client and web gateway that the delivery guarantees rest on.

The server keeps a message ledger in Redis. Six Lua scripts change it atomically: create a message
(idempotent on sender and client_msg_id), mark it Delivered, Pending, Acked or Failed, count a
retry. Eight business workers and one retry thread run handlers that are sequences of such
scripts, index reads, record fetches, table lookups and sends, and they carry record snapshots
from one step to the next that may be stale by the time they are used. Clients retransmit until
they are acknowledged, acknowledge a push only after queueing it, and talk over a byte stream with
length-prefixed frames.

`dafny verify dfyconfig.toml` checks everything. Files, from the bottom up:

- `Options`, `Decimal`, `SortedSet`: optional values, decimal text and the (score, bytes) order of a
  Redis sorted set.
- `Ledger`, `ScriptEffects`: the typed ledger, the six scripts, the agreement of every index with every
  status, and what each script does to each message.
- `Scans`, `QueryResults`: the index queries, with one view of the ledger per read, so with arbitrary
  interference; and which messages they return, in which order, when nothing interferes.
- `RedisKeys`, `RedisStore`: the flat string-keyed database, the key builders, and `MessageStore`
  as an object whose methods issue single commands; it refines the typed ledger.
- `FlatIndexes`: the same invariants as a reader of the plain keys and texts sees them.
- `UserState`: the tables of connections and online users.
- `Delivery`: the protocol as a transition system. Each worker and the retry thread have a program
  counter and snapshots; a step is one script, read, fetch, lookup or send; connections, clients,
  in-flight packets and strangers are explicit. A run is any sequence of labels.
- `EndToEnd`, `RetryBound`, `Snapshots`, `Progress`, `Serial`, `RunScans`: what holds in every run, or
  in every run of a stated kind.
- `PeerSteps`: clients, strangers and closed connections, step by step.
- `Solo`: one thread of `Delivery` running alone, for any answers of the clock and of `connected()`.
- `Handlers`, `HandlerRuns`, `RetryPass`, `Dispatcher`: the dispatcher as an object, one handler at a
  time. Its methods compute functions of the world before, and every run of a thread alone in
  `Delivery` ends in what those functions say. `HandlerEffects` and `PassEffects` say what they do to
  every message, packet and user.
- `FinalStates`: exactly when an Acked or a Failed message can be overwritten.
- `Deployment`, `ShardKeys`, `LateMark`, `LateFailed`: runs of the server as deployed (eight workers,
  connections sharded by address, ordered streams), and those in which Acked and Failed are left.
- `Framing`, `Streams`, `Sessions`: frames, the three receive loops, the server's session table.
- `ThreadPool`, `Presence`: the sharded pool under all interleavings, and the user table driven by it.
- `LeasePool`: the Redis connection pool. `ClientRetry`: the client's retransmission.

## Assumptions

- One server process. Redis commands succeed, each script is atomic, nothing else writes these
  keys, and records are never deleted (no script deletes one).
- Connection identities are fresh: a `Conn` is never reused for a later connection.
- Message ids stay below 10^14, so that Lua prints them as plain integers; millisecond timestamps
  are exact as sorted-set scores (both are below 2^53).
- The server does not authenticate users. `Delivery` therefore has strangers that send anything,
  and a set of trusted uids that only C++ clients log in as, in any number of client processes.
  Statements about what a client did are for those uids; statements about the ledger hold without
  them. One record per call is for a uid whose calls come from one process, since the counters that
  make client_msg_ids distinct belong to a process.
- The network keeps every packet ever sent and may deliver it any number of times, in any order,
  or never; this covers loss, retransmission and reordering.
- The clock and the answers of `connected()` are arbitrary at every step.

## Where the code and its comments differ

- `client/src/Client.cpp:284` announces retries after 1 s, 2 s, 3 s. The base is 2000 ms
  (`client/src/Client.cpp:13`), so it is 2 s, 4 s, 6 s; the model follows the code.
- `server/src/MessageStore.cpp:118` and `:135` call Acked and Failed final states. The scripts have
  no status guard, and `README.md:498` of the repository lists this as open work.
  `LateMark.AckedCanBeLeft` is a run of the deployed server that leaves Acked, and
  `FinalStates.AckedFinalIff` says exactly from which states that can happen. For Failed,
  `LateFailed.FailedCanBeAcked` is a run in which a late ACK makes the message Acked,
  `LateFailed.FailedCanBeLeft` one in which a stalled worker makes it Delivered again, and
  `FinalStates.FailedFinalIff` says exactly when nothing but a late ACK can move it.
  `Serial.FinalStatesKept` proves the intended rule for handlers and retry passes run one at a time.
- The retry thread of the client reads the clock before it locks the table
  (`client/src/Client.cpp:279-281`), so a request registered in between looks 2^64 ms old and is resent
  at once. The waiting times are kept exactly for the requests no scan meets that way
  (`ClientRetry.PatientIff`), and those are dropped after 42000 ms at the earliest
  (`ClientRetry.DroppedNoEarlier`). With a clock that never steps back, and that runs on through the
  1000 ms sleep between a pass and the next reading, the bound for every request is 37000 ms
  (`ClientRetry.RunningDroppedNoEarlier`). It is 36000 ms only if the clock may stand still through the
  sleep, and 36000 ms plus the nap in between (`ClientRetry.SteadyDroppedNoEarlier`);
  `ClientRetry.EarlyDrop` is a run that attains each of these.
- The destructor of `RedisClient` waits until nothing is borrowed (`server/src/RedisClient.cpp:139-146`),
  but a release gives its slot back under the lock and notifies after it
  (`server/src/RedisClient.cpp:182-193`). So it can finish while a thread has still to notify
  (`LeasePool.NotifyAfterDestroy`); `LeasePool.DestroySafeIff` says exactly when it does not.
- `MessageCodec::Encode` does not check the body length. `Framing.FrameRoundTrip` gives the exact
  range in which a frame decodes to itself.

## Model

| member | source | states |
|---|---|---|
| Ledger.CreateConsistent | server/src/MessageStore.cpp:55-89 | creating keeps ids 1..next_id, the idempotency map inverse to the ledger, and all three indexes in agreement; nothing existing is rewritten |
| Ledger.DeliveredConsistent | server/src/MessageStore.cpp:92-103 | markDelivered on any id keeps every index in agreement with every status |
| Ledger.PendingConsistent | server/src/MessageStore.cpp:106-116 | the same for markPending, which restores the original created_at score |
| Ledger.AckedConsistent | server/src/MessageStore.cpp:119-133 | the same for markAcked by any uid |
| Ledger.FailedConsistent | server/src/MessageStore.cpp:136-145 | the same for markFailed |
| Ledger.RetryConsistent | server/src/MessageStore.cpp:148-154 | the same for the retry counter |
| Ledger.EveryHistoryConsistent | server/src/MessageStore.cpp:55-154 | after any history of scripts every message is in exactly the index of its status, with the right score |
| ScriptEffects.Creating | server/src/MessageStore.cpp:69-88 | a new message is numbered next, Pending, with this receiver, content and moment and zero retries; it waits for its receiver, both users have it as recent, and no other message or index entry changes |
| ScriptEffects.CreatingAgain | server/src/MessageStore.cpp:56-67 | if a message with this sender and client_msg_id exists, it is the answer and nothing changes |
| ScriptEffects.Delivering | server/src/MessageStore.cpp:92-103 | exactly this message becomes Delivered at this moment, waits for nobody and is in the timeout index; an unknown id changes nothing |
| ScriptEffects.Returning | server/src/MessageStore.cpp:106-116 | exactly this message becomes Pending again and waits for its receiver under its creation time |
| ScriptEffects.Acknowledging | server/src/MessageStore.cpp:119-133 | from its receiver, exactly this message becomes Acked with acked_at = now and leaves both indexes; from anybody else nothing changes |
| ScriptEffects.Failing | server/src/MessageStore.cpp:136-145 | exactly this message becomes Failed and leaves both indexes |
| ScriptEffects.Counting | server/src/MessageStore.cpp:148-154 | exactly this message has one retry more, and no index moves |
| Scans.ScanSound | server/src/MessageStore.cpp:491-564 | under any interference each returned record satisfied the query at its own fetch; index order is kept; ids are distinct |
| Scans.ScanComplete | server/src/MessageStore.cpp:491-564 | a message that satisfies the query at every read of the scan is returned |
| RunScans.LoopTrace | server/src/MessageStore.cpp:491-646 | at every moment of every protocol run a fetch loop has collected exactly what the ledgers at that thread's own steps give: all its steps since, and starting with, its index read |
| RunScans.ScanInRun | server/src/MessageStore.cpp:491-646 | a finished pending or timeout scan inside a run, at the thread's steps from its index read on: every record satisfied the query at its own fetch step, once; a message satisfying it at each of these steps is there |
| Scans.QuietScanExact | server/src/MessageStore.cpp:611-646 | without interference a query is the exact ledger filter, ordered by (score, decimal id), for every clock and timeout including clock < timeout |
| Scans.QuietRecentScan | server/src/MessageStore.cpp:567-608 | the recent query returns the newest `limit` records oldest first, and nothing for uid 0 or limit 0 |
| QueryResults.PendingIs | server/src/MessageStore.cpp:491-564 | run alone, the pending query returns exactly the Pending messages to the user, oldest first |
| QueryResults.OverdueIs | server/src/MessageStore.cpp:611-646 | run alone, the timeout query returns exactly the Delivered messages with 0 < delivered_at and delivered_at + timeout <= now, earliest delivery first |
| QueryResults.RecentIs | server/src/MessageStore.cpp:567-608 | run alone, the recent query returns min(limit, all) messages from or to the user, oldest first, and whatever it leaves out is older than all of them |
| RedisKeys.MessageKeyInjective | server/src/MessageStore.cpp:29-31 | message keys are injective |
| RedisKeys.PendingKeyInjective | server/src/MessageStore.cpp:34-36 | Pending keys are injective |
| RedisKeys.RecentKeyInjective | server/src/MessageStore.cpp:39-41 | recent keys are injective |
| RedisKeys.IdempotencyKeyInjective | server/src/MessageStore.cpp:22-46 | idempotency keys are injective in (uid, client_msg_id) for arbitrary client_msg_id texts |
| RedisKeys.FamiliesDisjoint | server/src/MessageStore.cpp:22-51 | no key of one family, nor the two fixed keys, is a key of another |
| Decimal.ParseToString | server/src/MessageStore.cpp:177-191 | a number written in decimal is read back |
| Decimal.HighestFirst | server/src/MessageStore.cpp:29-31 | the text of a number has its digits highest first and no leading zero |
| Decimal.ParseExactly | server/src/MessageStore.cpp:177-191 | exactly the non-empty rows of digits are read, as the numbers they stand for |
| SortedSet.IdsAreRange | server/src/MessageStore.cpp:491-498 | reading a sorted set of decimal ids gives the ids ascending by (score, text) |
| SortedSet.LeqIs | server/src/MessageStore.cpp:491-498 | the order of that reply: lower score first, at equal scores the text that is smaller at the first difference |
| RedisStore.BuildTextOf | server/src/MessageStore.cpp:239-257 | a stored record is read back unchanged |
| RedisStore.BuildExactly | server/src/MessageStore.cpp:239-257 | exactly the hashes are readable whose numbers are rows of digits and whose status is one of the four texts |
| RedisStore.FetchRefines | server/src/MessageStore.cpp:278-304 | fetching from the flat database is fetching from the ledger; id 0 and unknown ids give nothing |
| RedisStore.FlatStoreInverse | server/src/MessageStore.cpp:22-89 | on the flat keys: hashes exist for exactly 1..next_id, and idempotency keys and hashes name each other |
| FlatIndexes.PendingOnDisk | server/src/MessageStore.cpp:34-36 | rmd:pending:<uid> holds exactly the ids whose hash says Pending and this to_uid, scored by created_at |
| FlatIndexes.TimeoutOnDisk | server/src/MessageStore.cpp:51-103 | rmd:delivered_timeout holds exactly the ids whose hash says Delivered, scored by delivered_at |
| FlatIndexes.RecentOnDisk | server/src/MessageStore.cpp:39-88 | rmd:recent:<uid> holds exactly the ids whose hash has this from_uid or to_uid, scored by created_at |
| FlatIndexes.IdempotencyOnDisk | server/src/MessageStore.cpp:44-88 | rmd:idem:<uid>:<client_msg_id> names an id if and only if its hash has this from_uid and client_msg_id; rmd:msg:next_id is the number of messages |
| RedisStore.IndexRefines | server/src/MessageStore.cpp:611-622 | the reply to an index read is the ledger's index in order, as text |
| RedisStore.FetchMatching | server/src/MessageStore.cpp:520-549 | the fetch loop keeps exactly the fetched records that pass the check, whatever ran between the reads |
| RedisStore.Search | server/src/MessageStore.cpp:491-564 | getPendingMessages and getTimeoutDeliveredMessages on the flat database are the ledger scan, under interference |
| RedisStore.SearchRecent | server/src/MessageStore.cpp:567-608 | the same for getRecentMessages |
| RedisStore.MessageStore.CreateMessage | server/src/MessageStore.cpp:405-433 | the create script key by key is the ledger's create step; its reply always parses |
| RedisStore.MessageStore.FindDuplicate | server/src/MessageStore.cpp:56-67 | the duplicate check finds exactly the earlier message of (from_uid, client_msg_id) |
| RedisStore.MessageStore.InsertMessage | server/src/MessageStore.cpp:69-88 | counter, idempotency key, hash and three index entries of a new message |
| RedisStore.MessageStore.MarkDelivered | server/src/MessageStore.cpp:92-103 | the command sequence is the ledger step; true iff the message exists |
| RedisStore.MessageStore.MarkPending | server/src/MessageStore.cpp:106-116 | the same for markPending |
| RedisStore.MessageStore.MarkAcked | server/src/MessageStore.cpp:119-133 | the same for markAcked; true iff the message exists and is to that uid |
| RedisStore.MessageStore.MarkFailed | server/src/MessageStore.cpp:136-145 | the same for markFailed |
| RedisStore.MessageStore.IncrementRetryCount | server/src/MessageStore.cpp:148-154 | the same for the retry counter |
| RedisStore.MessageStore.GetPendingMessages | server/src/MessageStore.cpp:491-564 | run alone: exactly the Pending messages to the user, oldest first |
| RedisStore.MessageStore.GetTimeoutDeliveredMessages | server/src/MessageStore.cpp:611-646 | run alone: exactly the messages Delivered with 0 < delivered_at and delivered_at + timeout <= now, earliest first |
| RedisStore.MessageStore.GetRecentMessages | server/src/MessageStore.cpp:567-608 | run alone: the newest min(limit, all) messages from or to the user, oldest first; none for uid 0 |
| UserState.BindInverse | server/src/UserStateService.cpp:45-84 | binding keeps both tables inverse, logs the user in here and out elsewhere, and touches nobody else |
| UserState.RemoveInverse | server/src/UserStateService.cpp:18-43 | removing takes a connection out of both tables and leaves a newer connection of its user online |
| UserState.LookupsAgree | server/src/UserStateService.cpp:86-111 | the two lookups answer the same question |
| UserState.UserStateService.BindUser | server/src/UserStateService.cpp:45-84 | the in-place updates compute Bind; a null connection and uid 0 are refused |
| UserState.UserStateService.RemoveConnection | server/src/UserStateService.cpp:18-43 | the in-place updates compute Remove; unknown connections change nothing |
| UserState.UserStateService.GetUidByConn | server/src/UserStateService.cpp:86-101 | the uid of an authenticated connection, 0 otherwise; it is online on that connection |
| UserState.UserStateService.GetConnByUid | server/src/UserStateService.cpp:103-111 | the connection of an online user, which is authenticated as that user |
| EndToEnd.EveryMessageIndexed | server/src/ServerEventDispatcher.cpp:345-397 | in every interleaving of workers and retry thread each message is in exactly the index of its status, so none drops out of all of them |
| EndToEnd.AckedWasQueued | client/src/Client.cpp:362-390 | if a message is Acked, a client logged in as its receiver, in whichever process, has already queued a non-history push with that id and exactly the stored content |
| EndToEnd.OneRecordPerCall | client/src/Client.cpp:91-134 | within one client process each sendMessage call has at most one record, with its receiver and content, and every ok ACK for its seq names that record |
| EndToEnd.ClientMsgIdsDistinct | client/src/Client.cpp:101-110 | two calls of the process never share a client_msg_id |
| EndToEnd.RunInv | server/src/ServerEventDispatcher.cpp:157-397 | the inductive invariant of the protocol holds in every reachable state |
| PeerSteps.PushHeard | client/src/Client.cpp:362-390 | a logged-in client queues every push it hears and ACKs it unless it is history; before that it ignores pushes |
| PeerSteps.MessageSent | client/src/Client.cpp:91-122 | a logged-in client puts one chat request with its own uid on the wire, otherwise nothing |
| PeerSteps.CloseHandled | server/src/ServerEventDispatcher.cpp:271-276 | once a worker has handled a close, the connection is in neither table and everybody online elsewhere still is |
| RetryBound.RetriesBounded | server/src/ServerEventDispatcher.cpp:278-302 | in every interleaving retry_count is at most 3 and equals the pushes the retry thread has begun |
| Progress.SilentOutcome | server/src/ServerEventDispatcher.cpp:278-302 | exact outcome for a silent, bound, connected receiver from any reachable state: Failed when retries + owed retry + due scans make four, Delivered with that many retries when less, never more (a scan is due ten seconds after delivery); Pending only if the pass had already found the receiver offline |
| Progress.SilentMessageFails | server/src/ServerEventDispatcher.cpp:290-300 | so 4 - retry_count due scans are enough; scans not due for the message and other users' connections do not matter |
| Snapshots.RunSeen | server/src/ServerEventDispatcher.cpp:278-320 | in every run workers carry only snapshots seen Pending, the retry thread only snapshots seen Delivered |
| Serial.FinalStatesKept | server/src/ServerEventDispatcher.cpp:157-302 | with handlers and retry passes one at a time, Acked is never left and Failed can only become Acked |
| Serial.AckedLeftIff | server/src/MessageStore.cpp:92-145 | a single step leaves Acked if and only if its thread is about to run another mark script for that message |
| FinalStates.AckedFinalIff | server/src/ServerEventDispatcher.cpp:312-397 | from a reachable state with the message Acked: it is Acked after every continuation if and only if no worker and no retry batch holds a snapshot of it that is still to be marked |
| LateMark.AckedCanBeLeft | server/src/ServerEventDispatcher.cpp:366-367 | with eight workers, every connection on the worker its key hashes to and ordered streams both ways: a run in which the receiver's ACK is handled between push and markDelivered and is overwritten, for any two connections on different workers |
| FinalStates.FailedFinalIff | server/src/ServerEventDispatcher.cpp:278-397 | from a reachable state with the message Failed: it is Failed, or Acked by a late ACK, after every continuation if and only if no worker holds a snapshot of it that is still to be marked |
| LateFailed.FailedCanBeAcked | server/src/MessageStore.cpp:119-133 | a run of the deployed server: push, markDelivered, four due passes without an answer, Failed, and then the receiver's ACK makes it Acked |
| LateFailed.FailedCanBeLeft | server/src/ServerEventDispatcher.cpp:366-367 | a run of the deployed server: a worker stalls between push and markDelivered, the receiver logs in again and gets the message there, four due passes make it Failed, and the worker's mark makes it Delivered |
| ShardKeys.KeysApart | server/include/ShardedThreadPool.h:98-105 | three concrete addresses, multiples of 16, that hash to three different workers of eight |
| HandlerRuns.HandlerIsRun | server/src/ServerEventDispatcher.cpp:128-154 | whatever the clock and connected() answer, a worker handling one request alone becomes idle, and the world is then what the handler's function says for answers that are all among those given |
| HandlerRuns.EndedRun | server/src/ServerEventDispatcher.cpp:128-154 | every such run that has ended, ended there, again for answers among those given |
| HandlerRuns.LoginRunDelivers | server/src/ServerEventDispatcher.cpp:304-343 | in the transition system: a login run alone over a live connection pushes exactly the pending list in order and leaves the pending index empty |
| Solo.WorkerDrives | server/src/ServerEventDispatcher.cpp:128-154 | one worker's steps, run alone, change the whole system exactly so |
| Solo.RetryDrives | server/src/ServerEventDispatcher.cpp:278-302 | the same for the retry thread |
| Handlers.LoginDelivers | server/src/ServerEventDispatcher.cpp:304-320 | a login pushes the pending list in order; the messages pushed become Delivered, exactly those met with the connection down stay pending, nothing else changes |
| Handlers.LoginEmptiesPending | server/src/ServerEventDispatcher.cpp:304-343 | with a live connection it pushes exactly the pending list and leaves the pending index empty; with nothing pending it shows the newest 100 as history |
| HandlerEffects.LoginShows | server/src/ServerEventDispatcher.cpp:157-181 | over a live connection: the user is online there, and after the answer gets one push for each message that waited, oldest first, or, if none did, the newest 100 messages as history, oldest first |
| HandlerEffects.LoginDeliversAll | server/src/ServerEventDispatcher.cpp:304-320 | over a live connection: exactly the messages that waited for the user become Delivered, and no other changes |
| HandlerEffects.LoginWhileDown | server/src/ServerEventDispatcher.cpp:304-343 | over a dead connection only the answer is sent and no message changes |
| HandlerEffects.ChatStored | server/src/ServerEventDispatcher.cpp:184-233 | a new chat request becomes the next message, is pushed to its receiver and Delivered or waits for it, and its id is acknowledged to the sender after that |
| HandlerEffects.ChatRepeated | server/src/ServerEventDispatcher.cpp:221-227 | a repeated request is answered with the id it got the first time, and nothing else happens |
| HandlerEffects.ChatRefused | server/src/ServerEventDispatcher.cpp:192-206 | a request from a connection not logged in as its sender gets an error answer, and nothing else happens |
| HandlerEffects.AckEffect | server/src/ServerEventDispatcher.cpp:236-263 | an ACK from the receiver makes exactly that message Acked at this reading and takes it out of the indexes; any other ACK does nothing |
| HandlerEffects.HandlerUsers | server/src/ServerEventDispatcher.cpp:128-168 | a handler leaves the user table as its task does: bind for a login with a uid, no change otherwise |
| HandlerEffects.StepUsers | server/src/ServerEventDispatcher.cpp:128-168 | the same for every single step of a worker, with remove for a closed connection |
| Handlers.HandleConsistent | server/src/ServerEventDispatcher.cpp:128-154 | every handler keeps the index agreement |
| RetryPass.PassIsRun | server/src/ServerEventDispatcher.cpp:278-302 | whatever the clock and connected() answer, a pass run alone comes to an end, in what the pass's function says for answers among those given |
| RetryPass.PassEffect | server/src/ServerEventDispatcher.cpp:287-300 | a pass fails, retries or returns to Pending exactly the messages overdue at its start, by retry count and reachability, and touches no other |
| PassEffects.PassChanges | server/src/ServerEventDispatcher.cpp:278-302 | a pass at now changes exactly the messages that are Delivered with 0 < delivered_at <= now - 10000, each to Failed after three retries, else to Delivered with one more or to Pending |
| PassEffects.PassSends | server/src/ServerEventDispatcher.cpp:371-397 | a pass sends, for exactly the messages it retries, a push with the message's content, not marked as history, on its receiver's connection |
| RetryPass.PassConsistent | server/src/ServerEventDispatcher.cpp:287-300 | a pass keeps the index agreement |
| Dispatcher.ServerEventDispatcher.TryDeliverMessage | server/src/ServerEventDispatcher.cpp:345-369 | final snapshots are skipped, unreachable receivers give Pending, otherwise push then Delivered |
| Dispatcher.ServerEventDispatcher.RetryDeliverMessage | server/src/ServerEventDispatcher.cpp:371-397 | the same with the retry counted before the push |
| Dispatcher.ServerEventDispatcher.DeliveryPass | server/src/ServerEventDispatcher.cpp:287-300 | the scan and the loop over its records compute the pass, keep the index agreement, and change exactly the messages Delivered ten seconds ago or earlier |
| Dispatcher.ServerEventDispatcher.DeliverPendingMessages | server/src/ServerEventDispatcher.cpp:312-320 | the loop over the pending records, and whether there were any |
| Dispatcher.ServerEventDispatcher.SendRecentMessages | server/src/ServerEventDispatcher.cpp:322-343 | history pushes of the recent list to a live connection, no ledger change |
| Dispatcher.ServerEventDispatcher.DeliverLoginMessages | server/src/ServerEventDispatcher.cpp:304-310 | history only when nothing was pending |
| Dispatcher.ServerEventDispatcher.HandleLogin | server/src/ServerEventDispatcher.cpp:157-181 | bind, answer, deliver; uid 0 is refused |
| Dispatcher.ServerEventDispatcher.HandleChat | server/src/ServerEventDispatcher.cpp:184-233 | strangers and forged senders are refused, duplicates answered with the first id and not delivered again, new messages stored at one clock reading, delivered at another, and acknowledged |
| Dispatcher.ServerEventDispatcher.HandleAck | server/src/ServerEventDispatcher.cpp:236-263 | id 0 and anonymous connections are ignored, otherwise markAcked as the connection's user |
| Dispatcher.ServerEventDispatcher.Handle | server/src/ServerEventDispatcher.cpp:128-154 | dispatch by request type; the index agreement is kept |
| Dispatcher.ServerEventDispatcher.HandleConnectionClosed | server/src/ServerEventDispatcher.cpp:271-276 | the connection leaves both user tables, nothing else changes |
| Framing.DecodeAll | common/protocol/Codec.h:84-134 | the offset loop computes the frame-by-frame decoding: status, envelopes, consumed bytes |
| Framing.DecodeOrThrow | web_gateway/src/ImProtocol.ts:34-60 | throws exactly when DecodeAll reports an error; otherwise the same envelopes, and rest is what DecodeAll leaves |
| Framing.DecodeSplit | common/protocol/Codec.h:84-134 | decoding a, then b behind what a left, is decoding a + b; bytes after a bad frame change nothing |
| Framing.RestBounded | common/protocol/Codec.h:92-133 | without an error less than one frame is left; status kOk iff nothing is left |
| Framing.FrameRoundTrip | common/protocol/Codec.h:60-76 | an encoded frame decodes to itself if and only if its body has 1 to max bytes; empty, oversized and 32-bit-wrapped bodies fail |
| Framing.HeaderBytes | common/protocol/Codec.h:60-76 | the length field is four bytes, highest first |
| Framing.BadFrame | common/protocol/Codec.h:100-126 | a bad length field is reported as invalid length, a body that does not parse as parse error, and nothing is decoded or consumed |
| Framing.OneMebibyte | common/protocol/Codec.h:84-134 | with the limit of the programs a frame comes back if and only if its body has 1 to 1048576 bytes |
| Framing.StreamRoundTrip | common/protocol/Codec.h:60-134 | frames followed by a proper part of one more decode to exactly those envelopes, and the part is kept |
| Streams.ChunkingIndependent | server/src/ChatServer.cpp:109-134 | however a stream without a bad frame is cut, exactly its envelopes are handed on, the leftover is the same, and it is shorter than 4 + max bytes |
| Streams.FailureSticks | server/src/ChatServer.cpp:119-124 | after a framing error no later byte ever dispatches anything on that buffer |
| Streams.BadStream | server/src/ChatServer.cpp:109-134 | with a bad frame exactly the envelopes complete before the exposing chunk are handed on, a prefix of the valid leading frames |
| Streams.BufferAfterError | server/src/ChatServer.cpp:109-124 | a chunk with a bad frame hands nothing on; the server keeps the bytes from the bad frame on, the gateway all of them |
| Streams.TransmissionIndependent | common/protocol/Codec.h:60-134 | encoded frames and part of another, cut in any way, come out as they went in |
| Streams.ReceiverLoop | client/src/Client.cpp:220-270 | the client handles exactly the decodable envelopes of the bytes received, with or without a bad frame, whatever the chunks |
| Streams.ImClient.HandleData | web_gateway/src/ImClient.ts:118-135 | one chunk at the gateway: a throw hands nothing on and closes |
| Sessions.ChatServer.OnConnection | server/src/ChatServer.cpp:71-93 | a new connection gets an empty buffer; a closed one loses it and queues one close event |
| Sessions.ChatServer.OnMessage | server/src/ChatServer.cpp:95-136 | unknown connections and bad frames dispatch nothing and shut the connection down |
| Sessions.ConnectionEvents | server/src/ChatServer.cpp:71-136 | however connections interleave, a connection's events are the envelopes of its own bytes in order and then its close, which is last |
| ThreadPool.KeyOrder | server/include/ShardedThreadPool.h:92-118 | in every interleaving the started tasks of a key are its first accepted ones, in order, once each, on one worker |
| ThreadPool.ExitedRanAll | server/include/ShardedThreadPool.h:56-143 | a worker that has exited has run every task ever accepted for it, and none is accepted for it afterwards |
| ThreadPool.SubmitAlone | server/include/ShardedThreadPool.h:92-118 | an undisturbed submit queues the task last on the worker of its key and accepts it if and only if the pool is not stopping |
| ThreadPool.CanAlwaysExit | server/include/ShardedThreadPool.h:56-143 | from every reachable state there is a continuation in which the pool stops and the worker exits with every task accepted for it run |
| ThreadPool.RunInv | server/include/ShardedThreadPool.h:56-118 | accepted tasks are started or queued, once, in order, in every reachable state |
| Presence.EffectsInOrder | server/src/ServerEventDispatcher.cpp:72-110 | table changes made for a connection are its first accepted tasks, in order |
| Presence.NoGhostUsers | server/src/UserStateService.cpp:18-84 | once a connection's close was handled it is in neither table, despite queued logins and takeovers; the tables stay inverse |
| Presence.PresentIff | server/src/UserStateService.cpp:18-84 | in every interleaving a user is online on a connection if and only if its login there was handled and since then neither did that connection close or log in as another user, nor did the user log in elsewhere |
| Presence.NoChangeMissing | server/include/ShardedThreadPool.h:56-90 | a worker that is not in the middle of a task has made the table changes of all tasks it started |
| Presence.ChangeComes | server/src/ServerEventDispatcher.cpp:72-110 | a task in hand makes its change when its turn comes |
| Presence.ClosedConnectionStaysOut | server/src/ChatServer.cpp:71-136 | the same from network callbacks on: any bytes, any chunks, any interleaving of connections |
| Presence.GoneIsAbsent | server/src/ChatServer.cpp:71-136 | a connection reported down, with all it caused handled, is in neither table |
| Presence.LoggedInIsOnline | server/src/ChatServer.cpp:95-136 | a user whose login came over the wire, not followed by another login or the close of that connection nor by a login elsewhere, is online there once all is handled |
| LeasePool.PoolConserved | server/src/RedisClient.cpp:84-193 | over every run: one lease per slot, free slots distinct and unleased, borrowed_ = live leases, free + borrowed = size until stopping, no lease holds a freed context |
| LeasePool.NoLeaseOutlives | server/src/RedisClient.cpp:139-146 | the destructor finishes only when no lease is live |
| LeasePool.DestroySafeIff | server/src/RedisClient.cpp:139-193 | from the destructor's last step on no thread ever notifies the destroyed pool, if and only if none is between giving its slot back and notifying at that step |
| LeasePool.NotifyAfterDestroy | server/src/RedisClient.cpp:182-193 | a run for every pool size in which the destructor has finished and a release has still to notify |
| LeasePool.RedisClient.constructor | server/src/RedisClient.cpp:129-137 | size 0 becomes 1, and every slot is free, the first on top |
| LeasePool.RedisClient.AcquireLease | server/src/RedisClient.cpp:148-176 | the slot returned last is leased, with its healthy connection or a new one; it waits exactly when none is free and the pool is not stopping; an empty lease while stopping |
| LeasePool.RedisClient.CloseLease | server/src/RedisClient.cpp:112-118 | the slot's context is freed and the lease forgets it; no other slot or lease changes |
| LeasePool.RedisClient.ReleaseLease | server/src/RedisClient.cpp:120-127 | the slot goes back once, with its context; an empty lease returns nothing; no other lease changes |
| LeasePool.RedisClient.MoveConstruct | server/src/RedisClient.cpp:88-94 | slot and context move to the target, the source is empty, and no other lease or slot changes |
| LeasePool.RedisClient.MoveAssign | server/src/RedisClient.cpp:96-106 | the target's own slot is free again unless the pool is stopping, then slot and context move as above; self-assignment does nothing |
| LeasePool.RedisClient.Destroy | server/src/RedisClient.cpp:139-146 | it stops the pool and finishes exactly when nothing is borrowed; then no lease is live |
| ClientRetry.Client.Register | client/src/Client.cpp:105-122 | the registering half of sendMessage is the Send step of the retry system: a fresh seq, an entry with this envelope and moment and no retries, nothing else changed |
| ClientRetry.Client.Erase | client/src/Client.cpp:351-360 | handleAck is the Acked step: the request leaves the table, every other entry stays as it is |
| ClientRetry.Client.BeginScan | client/src/Client.cpp:278-279 | the clock is read before the lock, as a step of its own |
| ClientRetry.Client.FinishScan | client/src/Client.cpp:280-308 | the critical section is the Scan step, returns exactly the requests to resend, and treats every entry as below |
| ClientRetry.Client.ScanTable | client/src/Client.cpp:282-307 | the in-place pass, in any order: an entry waits 2000 * (retries + 1) ms, then is resent with one more retry if it has fewer than five, else dropped; every other entry is left alone |
| ClientRetry.AtMostSixTransmissions | client/src/Client.cpp:273-323 | whatever the clock does, a request is transmitted at most 6 times, always with the same envelope |
| ClientRetry.EveryTransmissionCounted | client/src/Client.cpp:105-122 | over every run: sends made, sends given up and sends still to come are one for the call and one for every retry |
| ClientRetry.AckedForGood | client/src/Client.cpp:351-360 | after its ACK is handled a request is never waited for, resent or dropped again, whatever follows |
| ClientRetry.RestartForgets | client/src/Client.cpp:33-37 | the same for every request when the client starts anew |
| ClientRetry.KeptUntilDropped | client/src/Client.cpp:273-308 | without an ACK a request stays in the table until it has been resent five times, and only then is it dropped |
| ClientRetry.DueExactly | client/src/Client.cpp:285-290 | for all 64-bit readings: an entry is due exactly when its waiting time is over or it is ahead of the reading |
| ClientRetry.PatientIff | client/src/Client.cpp:279-290 | over whole runs: every scan that chooses a request has waited its full interval if and only if no scan meets it ahead of its reading |
| ClientRetry.DroppedNoEarlier | client/src/Client.cpp:273-323 | a request no scan meets ahead of its reading is dropped no earlier than 42000 ms after registration |
| ClientRetry.SteadyDroppedNoEarlier | client/src/Client.cpp:273-323 | with a clock that never steps back and advances by at least nap between a pass and the next reading, no earlier than 36000 ms + nap, for every nap |
| ClientRetry.RunningDroppedNoEarlier | client/src/Client.cpp:273-276 | so with the 1000 ms sleep and a clock that runs through it, no earlier than 37000 ms |
| ClientRetry.EarlyDrop | client/src/Client.cpp:279-281 | for every nap below 4000 ms a run with such a clock, a request registered between reading and lock, that is dropped after exactly 36000 ms + nap |

## Left out

- Protobuf, hiredis, sockets and Muduo: foreign code; a parse/serialize pair, atomic steps and network events stand for them.
- Redis failures: the handlers ignore the results of incrementRetryCount and markDelivered, so the retry bound needs these to succeed.
- Several server processes on one Redis: the retry bound needs a single incrementing thread.
- Termination of `ShardedThreadPool::stop()` and condition-variable wake-ups: `stopped_` is stored without the worker's mutex, so a wake-up can be lost; `ThreadPool.CanAlwaysExit` says that the exit stays possible, not that it comes.
- Message hashes with missing or foreign fields, and the spaces, signs and overflow that strtoull and strtol accept: the scripts never write such hashes.
- Widths of counters: retry_count as int and ids as uint64 are far from their limits; the wrap-around that matters (frame length, clock difference, shard hash) is modelled.
- Presence.ClosedConnectionStaysOut: takes as given that a connection's own network thread submits its events in their order, which is how the network library calls back.
- Reply texts, log lines, the server timestamp default in a push, and envelope fields no decision depends on.
- Web gateway sessions, authentication, WebSocket and HTTP plumbing: small tables that would only add easy members.
- Performance counters, status reports, the command-line client and heartbeat timestamps: recorded but never used for a decision.
