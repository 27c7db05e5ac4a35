# Verified model of a chat relay

A Go server relays signed frames between TypeScript clients through bounded mailboxes; the
clients acknowledge what they receive. This project models four parts of that system and
proves what they keep over every run.

1. **Relay and receipts.** `Relay` is the server as a transition system (registration, the
   users cache with its asynchronous renewal, handshakes, receive and send loops, mailboxes of
   100 slots). `ChatClient` is one client, where the code between two awaits is one step and
   what waits for an await is a task. `Protocol` puts any number of clients, lossy connections
   and the server together. The main results are `Protocol.NoFalseReceipt` (a message shown as
   received is held, word for word, by the client it was addressed to) with its counterpart
   `Delivery.ReceiptComes` (the run can always go on to that), `TextDisplay.TextShownMeansHeld`
   (the same for a text shown to several members), `HeldOnce.AtMostOnce` and
   `HeldOnce.ReceivedMeansExactlyOnce` (no client holds a message twice, and a received one is
   held once in the whole system), `RelayOrder.AtMostOnceEverywhere`,
   `RelayExact.OrderKeptIffSettled` (exactly when the relay keeps the order),
   `RelayLaws.MailboxesAuthentic`, `RelayLaws.OutcomesAccounted`,
   `ClientLaws.ConversationsStayTogether` and `ClientHistory.ContactsAreAskedOrAccepted`.
   `ClientHistory`, `RelayEffects` and `Connections` read what a client, the server and a
   connection do off what happened to them, without their step functions. `FirstMessage` walks through one run from the
   beginning. `RelayTrace` has the tools for building runs of the server, `RelaySettled` the
   states that keep the order, `RelayUnsettled` the runs by which all others lose it, and
   `RelayReorder` one such run from the beginning. `RelayHeap` and `ClientHeap` are the same
   steps on mutable, shared objects, each method proved to take the step of the transition
   system.
   `AggregateSend` is the display of a message sent to several recipients, `CloseProtocol` the
   shutdown of a server session.
2. **Expiring stores.** `ObjectCache` is the list-and-map cache in place, proved against
   `CacheSpec`, whose contents are shown to be a function of the history. `LifeCycle` is the
   list with a bounded expiry channel; each of its methods takes one step of a machine whose
   cleanup can be held up between any two of its steps.
3. **Queue and event trigger.** `LinkedQueue` is the doubly linked list with one stored
   awaiter, `EventTrigger` the buffering listener slot. Both refine plain sequences.
4. **Wire codec.** `Wire` has the byte primitives after the Protocol Buffers Encoding
   specification, sections "Base 128 Varints", "Length-Delimited Records" and "Last One Wins";
   `Messages` the five message types and their laws; `WireFormat` the format itself, as
   predicates on bytes that mention no codec, with the proof that exactly it is written and
   read; `Serializer` the generated readers and writers as loops over buffers, proved equal to
   the codec.

Every imperative class or method is tied to a function on values, its specification; the laws
are proved about that function. A run is a sequence of labels folded by a step function; a
label that is not enabled changes nothing, so the laws hold in every reachable state and for
every interleaving. History variables (what was delivered, accepted, posted, emitted) are
fields of the states that no branch depends on.

Some expected laws do not hold of the code without a condition. These are stated with the
exact condition, in both directions: `QueueSpec.LostPromiseIffOverlap`,
`EventSpec.ExactlyOnceIffNoNullFlush`, `CacheSpec.ScheduleIndependentIff` and
`RelayExact.OrderKeptIffSettled`. The last one is about in-order relay, which a fingerprint
that expires and is registered again can break (`RelayReorder.OutOfOrderRun`). A state is
settled for a cached fingerprint when the cache, pending set requests, registrations and
renewals refer to one user object of it only, no other of its objects that has a session has a
client's frame waiting, and for every sender what was written followed by what waits in that
one object is in the order of acceptance. `ClientLaws.OnlyFreshMessagesKeepIndexing` shows why
the client laws speak of messages that have not been sent before, and
`CloseSpec.SafeIffConnectionPresent` what the connection test in `Close` is for, although no
started session lacks a connection.

## Model

| member | source | states |
|---|---|---|
| Protocol.NoFalseReceipt | www/lib/tmcs-anonymous/src/index.ts:232-308 | In every run of any number of honest clients over the lossy server: if a client's archived message is Received, the client named as its receiver exists, has the sender as a contact and, unless the message was a contact request, holds that very message of that sender, id and text, in a session |
| TextDisplay.TextShownMeansHeld | www/lib/tmcs-anonymous/src/session.ts:21-74 | In every run in which the timer of a text fires, the text is in a session with just those other members; and if its display, driven by the receipts the client applies, is ever Received, every one of them is a client that holds the message made for it, with the text |
| HeldOnce.AtMostOnce | www/lib/tmcs-anonymous/src/index.ts:283-295 | In every run of clients, lossy connections and server, no client holds the same message of the same sender at two places, in one session or in two |
| HeldOnce.ReceivedMeansExactlyOnce | www/lib/tmcs-anonymous/src/index.ts:297-308 | In every run, a text shown as received is held, with the text that was archived, at exactly one place in all sessions of all clients, and that is with the client it was addressed to |
| HeldOnce.HeldWasSent | www/lib/tmcs-anonymous/src/index.ts:280-295 | In every run, whatever a session holds is a text its owner said or was archived, word for word, by the sender it names for this very client, its contact |
| HeldOnce.AlwaysOnePlace | www/lib/tmcs-anonymous/src/index.ts:337-351 | In every run, counting tasks to encrypt, frames to sign, frames on connections, frames in mailboxes and messages in sessions, a message of one client for another is in one place at most, and in none before it is archived |
| HeldOnce.StepKeepsPlaces | src/user/session.go:86-142 | No step of a client, a connection or the server makes a second place for a message |
| Delivery.ReceiptComes | www/lib/tmcs-anonymous/src/index.ts:280-308 | The other half: every run that comes to the point where a client has an archived message to send to a client that has it as a contact, both with a session and cached, goes on to a run in which the message is shown as received, whatever else is under way or queued |
| Delivery.Settle | src/user/session.go:86-142 | From any such state, what is under way between two clients, over both connections and through both mailboxes, can be delivered first, with the message still to send |
| FirstMessage.ReceiptsHappen | www/lib/tmcs-anonymous/src/index.ts:310-351 | There are runs, from the very beginning through registration, handshake and contact request, in which a contact request and then a text is shown as received |
| Protocol.TextsAreNeverRequests | www/lib/tmcs-anonymous/src/index.ts:240-277 | In every run, each message of a pack that a client treats as a contact request was archived by its sender as a contact request to that client; an ordinary text never lands there |
| Protocol.AlwaysInvariant | www/lib/tmcs-anonymous/src/index.ts:197-308 | In every reachable state every archived message, session, pending task, frame on a connection and queued frame is truthful: message packs name archived messages to that receiver, "received" receipts are owed, members of sessions know each other, and connections belong to the signers of their sessions |
| Protocol.StepKeepsInvariant | src/user/session.go:86-142 | Every single step of a client, a connection or the server, with any loss, keeps that invariant |
| Protocol.ClientChangeKeeps | www/lib/tmcs-anonymous/src/index.ts:337-351 | A truthful change of one client never falsifies what any other client, connection or mailbox says |
| Protocol.KnownSenderNews | www/lib/tmcs-anonymous/src/index.ts:280-295 | When a known sender's pack is handled, the receipt put on its way is true of the state after the delivery loop, and sessions it opens are between mutual contacts |
| Protocol.ReceiptsTruthful | www/lib/tmcs-anonymous/src/index.ts:297-308 | Applying any list of owed receipts, one after the other, keeps the client's archive and sessions truthful |
| Protocol.WrittenTruthful | src/user/session.go:115-139 | What a send loop writes is a client's truthful frame, addressed to the client at the other end of that connection |
| ClientLaws.AlwaysSound | www/lib/tmcs-anonymous/src/index.ts:337-340 | Over every run with sends and receipts interleaved, the message archived at position i has id i, the first slot is empty, and contacts are keyed by their own fingerprints |
| ClientLaws.ActGrows | www/lib/tmcs-anonymous/src/index.ts:232-308 | Every step keeps contacts, extends the archive (only states change) and extends sessions (members fixed, messages only added) |
| ClientLaws.OnlyFreshMessagesKeepIndexing | www/lib/tmcs-anonymous/src/index.ts:337-340 | Archiving a fresh message keeps ids and positions equal; sending a message object that is archived already always breaks it |
| ClientLaws.ConversationsStayTogether | www/lib/tmcs-anonymous/src/index.ts:283-295 | Over every run, the messages handled as coming from a known sender other than oneself are in one session, complete and in order, and no other session holds any of that sender |
| ClientLaws.SessionOfSenderIsFixed | www/lib/tmcs-anonymous/src/index.ts:285 | Once a sender has a session, continuing the run in any way leaves it the sender's session |
| ClientHistory.ContactsAreAskedOrAccepted | www/lib/tmcs-anonymous/src/index.ts:253-316 | Over every run, a fingerprint is a contact exactly when the client asked it, or its application accepted its request with its own key, and with the user of the last time; nobody becomes one by a rejection, by an unheard request or by sending |
| ClientHistory.DecisionOutcome | www/lib/tmcs-anonymous/src/index.ts:253-275 | A contact request with the sender's key is answered by one frame with a receipt for each message: "lost" without a listener, "reject" on a no, both leaving contacts and sessions alone, "received" on a yes, which adds just the sender and one session with it |
| ClientHistory.NoDecision | www/lib/tmcs-anonymous/src/index.ts:241-251 | With another key, or when reading it fails, a contact request leaves nothing behind |
| ClientHistory.HandledIsWhatArrived | www/lib/tmcs-anonymous/src/index.ts:280-295 | Over every run, the messages handled are those of the packs that arrived from senders who were contacts at that time, all of them, once, in order |
| ClientHistory.KnownPackOutcome | www/lib/tmcs-anonymous/src/index.ts:280-295 | A contact's pack is handled whole and answered by one frame with a "received" for each message, in order, and changes nothing but sessions besides |
| ClientHistory.DeliveryOutcome | www/lib/tmcs-anonymous/src/index.ts:283-295 | A message goes to the end of the first session with its sender, and only when there is none to a new session with just the contact |
| ClientHistory.StateIsLastReceipt | www/lib/tmcs-anonymous/src/index.ts:297-308 | Over every run, the state of a sent message is the one in the last receipt about it that arrived after it was archived, and it has none before |
| ClientHistory.FramesAreNumbered | www/lib/tmcs-anonymous/src/index.ts:368-374 | Over every run, a client's frames carry its name and the numbers 1, 2, 3 and so on, each number one frame, whether waiting for its signature, sent or given up |
| ClientHistory.SessionsArePairs | www/lib/tmcs-anonymous/src/index.ts:310-330 | In every run each session has the client and one other member, so a text goes to exactly that one |
| ClientHistory.TimerOutcome | www/lib/tmcs-anonymous/src/session.ts:62-68 | The timer of a text archives one message with it for each recipient, in order under the next numbers, starts an encryption for those that are contacts, and does nothing else |
| ClientHistory.EncryptionOutcome | www/lib/tmcs-anonymous/src/index.ts:337-351 | An encrypted message becomes one frame with just that message, its number, its receiver and its text; when encryption fails nothing is sent |
| ClientHeap.TMCSAnonymous.Send | www/lib/tmcs-anonymous/src/index.ts:337-341 | Any message object gets the next id and the last place of the archive, whether or not its receiver is a contact; a fresh one is the specified step, and one archived before is in both places with the new id |
| ClientHeap.TMCSAnonymous.SendAll | www/lib/tmcs-anonymous/src/session.ts:62-68 | The loop over all recipients archives one fresh message for each, in order, as the specification's batch does |
| ClientHeap.TMCSAnonymous.SendText | www/lib/tmcs-anonymous/src/session.ts:21-31 | The text is pushed to the session at once; one message object is made for every member whose user object is not the client's own |
| ClientHeap.TMCSAnonymous.SendPack | www/lib/tmcs-anonymous/src/index.ts:368-374 | The frame is numbered by the package archive and waits for its signature |
| ClientHeap.TMCSAnonymous.ApplyReceipt | www/lib/tmcs-anonymous/src/index.ts:299-307 | A receipt overwrites the state of the one message object archived at its id, whoever sent it, and opens a session when a contact request was received |
| ClientHeap.TMCSAnonymous.ReceiptHandler | www/lib/tmcs-anonymous/src/index.ts:297-308 | The loop over a receipt pack equals the specification's fold |
| ClientHeap.TMCSAnonymous.FindSession | www/lib/tmcs-anonymous/src/index.ts:285 | The session found is the first one with a member of that fingerprint, or none when there is none |
| ClientHeap.TMCSAnonymous.Deliver | www/lib/tmcs-anonymous/src/index.ts:283-295 | One message goes to the end of that session, which is opened with the contact when missing |
| ClientHeap.TMCSAnonymous.MsgHandlerKnown | www/lib/tmcs-anonymous/src/index.ts:232-295 | The whole handler for a contact's pack, receipt first and then the delivery loop, on shared session objects |
| ClientHeap.TMCSAnonymous.Decide | www/lib/tmcs-anonymous/src/index.ts:253-275 | The end of a contact request: wrong key, no listener, rejection or acceptance, each with its receipt and its effect on contacts and sessions |
| ClientHeap.TMCSAnonymous.ContactRequest | www/lib/tmcs-anonymous/src/index.ts:310-316 | The asked user is a contact before the request is sent |
| ClientHeap.TMCSAnonymous.GenReceipt | www/lib/tmcs-anonymous/src/index.ts:405-416 | One receipt for each message, with its id and the given state, in order |
| RelayLaws.CacheNeverMixesUsers | src/cache/object_cache.go:124-140 | In every reachable state cached entries, pending set requests and stale reads about to be renewed pair a key only with a user of that fingerprint, so a lookup never yields another user |
| RelayLaws.MailboxesAuthentic | src/user/session.go:218-243 | In every reachable state a queued message is either the server's report naming nobody, or names its sending user's and the mailbox owner's fingerprints; the server's reports are never written to a socket |
| RelayLaws.WrittenWasSubmitted | src/user/session.go:86-142 | Every frame written to a socket is addressed to that user and was accepted earlier through a session whose handshake was signed with the key of the sender it names |
| RelayLaws.SignersAccepted | src/user/session.go:174-175 | Every accepted frame names the signer of the session it came through |
| RelayLaws.MailboxesAreBoundedQueues | src/user/user.go:50-57 | At all times what was stored in a mailbox is what was taken out followed by what is in it, and at most 100 messages wait |
| RelayLaws.OutcomesAccounted | src/user/session.go:218-243 | Over every run, one to one and in order: each accepted frame with a known receiver was tried once on the mailbox of the user object the cache named, which has the receiver's fingerprint, with the recorded outcome, and each failed frame had one report of the right kind tried on its sender's mailbox |
| RelayLaws.LostExactlyWhenFull | src/user/user.go:50-57 | Over every run, any frame or report tried on a mailbox was lost exactly when that mailbox held 100 messages just before the step that tried it |
| RelayLaws.DispatchEffect | src/user/session.go:218-243 | One dispatch appends the frame to the receiver's mailbox, or the right error report to the sender's, lost only when that is full as well, also when sender and receiver are the same; no other mailbox changes |
| RelayEffects.AcceptanceOutcome | src/user/session.go:218-243 | A frame that names its session's user is accepted once, with what became of it; of the user objects only mailboxes and contacts can differ |
| RelayEffects.RefusalOutcome | src/user/session.go:75-92 | Bytes that do not parse are reported as an invalid message, a frame naming another sender as a verification error, to the session's own mailbox, and nothing else changes |
| RelayEffects.SendingOutcome | src/user/session.go:115-139 | A send loop takes out the oldest message and writes it exactly when its sender is cached and not on the black list |
| RelayEffects.ContactsAreMetOrIntroduced | src/user/session.go:218-228 | Over every run, a fingerprint is in a user's contacts exactly when the user sent it a frame while it was cached, or the two were introduced and there was room |
| RelayEffects.UsersWereRegistered | src/tmcs/server_handler.go:73-105 | Over every run, there is one user object for each registration of a key that was not cached, in order, with that fingerprint |
| RelayEffects.FoundWhileLive | src/cache/object_cache.go:33-79 | Over every run of the server, a fingerprint is found exactly while the last set asked for by a registration or renewal is live, with the deadline of its own lifetime, and all set requests are processed in order |
| RelayEffects.SessionOutcome | src/user/session.go:296-308 | A handshake makes a session exactly when the claimed key is cached and the signer is the user found |
| Connections.UpInOrder | src/user/session.go:57-64 | Over every run, what the server takes from a connection and what is on its way are, in order and at most once, the frames its client put on it, and all of them when nothing was lost |
| Connections.DownInOrder | src/user/session.go:137-139 | The same from the server's writes to what the client handles |
| RelayLaws.RelayInOrderAtMostOnce | src/user/session.go:104-142 | For one user object: the frames of one sender written out of its mailbox, through however many send loops, are a subsequence of the frames accepted from that sender for its fingerprint, despite a full mailbox and expiry |
| RelayOrder.AtMostOnceEverywhere | src/user/session.go:218-243 | For a receiver's fingerprint, however often it is registered again: the frames of one sender stored in all its mailboxes are in the order of acceptance, and none is written to its sockets more often than it was accepted |
| RelayOrder.OneObjectKeepsOrder | src/tmcs/server_handler.go:73-105 | As long as no second user object of the fingerprint was made, all that is written to its sockets from one sender is a subsequence of what was accepted |
| RelayExact.OrderKeptIffSettled | src/user/session.go:104-142 | After every run whose clock never went back, for a cached fingerprint: all continuations with such a clock and the one configured lifetime that do not register it again keep every sender's order, if and only if the state is settled |
| RelayExact.AnyRunCanLoseOrder | src/tmcs/server_handler.go:73-105 | Every run whose clock never went back can go on so, by registering a fingerprint again while a frame waits in its old mailbox, to one in which a sender's frames are written to the receiver out of order |
| RelaySettled.SettledKeepsOrder | src/user/session.go:104-142 | From a settled state every continuation that does not register the fingerprint again keeps every sender's order, whatever the clock and the lifetimes do |
| RelaySettled.StepKeepsSettled | src/user/session.go:75-142 | Every step but that registration leaves a settled state settled on the same object |
| RelayUnsettled.UnsettledLoses | src/user/session.go:104-142 | From every state that is not settled, steps at one moment, without cleanups and without registering the fingerprint, lead to a state in which some sender's frames were written out of order |
| RelayExact.OneObjectIsSettled | src/tmcs/server_handler.go:73-105 | In every run, as long as no second user object of a cached fingerprint was made, the state is settled |
| RelayExact.TwoObjectsMayBeSettled | src/tmcs/server_handler.go:73-105 | A run in which a fingerprint expired and came back, whose state is settled with two objects |
| RelayReorder.OutOfOrderRun | src/user/session.go:104-142 | A run of seventeen steps from the beginning in which two frames are accepted in one order and written in the other |
| RelayLaws.StoredInOrder | src/user/session.go:218-243 | The frames of a sender stored in a mailbox are a subsequence of those accepted from that sender for its owner |
| RelayHeap.User.Post | src/user/user.go:50-57 | The message is appended when fewer than 100 wait and lost otherwise; no other object changes |
| RelayHeap.User.AddContact | src/user/user.go:33-39 | The contact is entered only below the limit |
| RelayHeap.User.CheckContact | src/user/user.go:59-69 | True exactly when the key is not on the black list and is cached |
| RelayHeap.Registry.TryRegister | src/tmcs/server_handler.go:73-105 | A key that is not cached gets a new user object with empty mailbox and contacts, not yet in the cache |
| RelayHeap.Introduce | src/tmcs/server_handler.go:211-227 | Registration by invitation enters the contacts both ways, or gives the new user up at the first refusal |
| RelayHeap.Session.Dispacth | src/user/session.go:218-243 | On shared user objects, also when a user writes to itself: unknown receiver, full mailbox and delivery take the specified steps |
| RelayHeap.Session.Receive | src/user/session.go:75-95 | Bytes that do not parse and frames naming another sender are reported to the session's own user; everything else is dispatched |
| RelayHeap.Session.SendOne | src/user/session.go:112-139 | The oldest queued message is taken out, and written exactly when its sender is cached and not on the black list |
| CacheSpec.StoreEqualsHistory | src/cache/object_cache.go:33-79 | A key maps to a value exactly when the last request for it is a set of that value and no later cleanup ran after its deadline; the deadline is the one of that set |
| CacheSpec.StoreIsReplay | src/cache/object_cache.go:103-122 | In every run of the processing loop and its callers the cache is the replay of the requests and cleanups processed |
| CacheSpec.RequestsInOrder | src/cache/object_cache.go:103-165 | Over every run, what was processed followed by what still waits is what was asked for: every set with its own key, value and lifetime, and every removal of a key that was cached, in order, none lost and none twice |
| CacheSpec.NoEarlyEviction | src/cache/object_cache.go:63-79 | With a clock that never goes back, a value is found at least until its deadline has passed |
| CacheSpec.DrainOutcome | src/cache/object_cache.go:103-122 | What a key maps to after both request queues are drained, for every schedule |
| CacheSpec.OnlySetsEndsAtLast | src/cache/object_cache.go:133-140 | A key with only sets pending always ends at the last one queued |
| CacheSpec.ScheduleIndependentIff | src/cache/object_cache.go:155-165 | A key's outcome is the same for every schedule exactly when it does not have requests waiting in both queues |
| CacheSpec.InterleavingsConfluent | src/cache/object_cache.go:103-122 | Two interleavings of set and remove requests that agree on each key's own order leave the same map |
| CacheSpec.LastRequestDecides | src/cache/object_cache.go:33-61 | Without cleanups a key maps to what its last request said |
| ObjectCache.ObjectCache.SetInternal | src/cache/object_cache.go:33-48 | Overwrites the shared element in place, or adds one at the end of the list and to the map; list and map go on holding the same elements with distinct keys, and the map goes on being the replay of the history |
| ObjectCache.ObjectCache.RemoveInternal | src/cache/object_cache.go:50-61 | Takes the one element of that key out of list and map |
| ObjectCache.ObjectCache.Cleanup | src/cache/object_cache.go:63-79 | Removes exactly the elements whose deadline is before now, keeps the order of the rest, and calls the handler on each removed one in list order |
| ObjectCache.ObjectCache.Unlink | src/cache/object_cache.go:52-58 | The search loop that leaves at the first match removes exactly the target |
| ObjectCache.ObjectCache.Get | src/cache/object_cache.go:142-148 | Answers from the map alone, without looking at the deadline; what it answers is the value of the last live set in the history of the cache object |
| ObjectCache.ObjectCache.Renew | src/cache/object_cache.go:124-131 | For a key that is there, the value read now is queued, or is what the caller still has to send while the channel is full; nothing else changes |
| ObjectCache.ObjectCache.Delete | src/cache/object_cache.go:155-165 | Returns the value; a removal of a key that is there is queued, or waits exactly while the channel is full |
| ObjectCache.ObjectCache.ProcessSet | src/cache/object_cache.go:106-110 | The set branch of the loop takes the oldest request and applies it now |
| ObjectCache.WithoutLinked | src/cache/object_cache.go:63-79 | Dropping elements from the list and their keys from the map keeps both in step |
| LifeCycleSpec.Conservation | src/lib/lifecycle_mgr.go:53-85 | Over every run, with cleanups blocked on the channel anywhere and deadlines moved under them: added = live + removed + about to be emitted + emitted as multisets, live entries keep their order, only entries past their deadline are emitted, and the channel loses nothing |
| LifeCycleSpec.EmittedAtMostOnce | src/lib/lifecycle_mgr.go:72-85 | No added entry is emitted twice, and none emitted is still live or was removed |
| LifeCycleSpec.NothingEmittedEarly | src/lib/lifecycle_mgr.go:53-85 | Over every run, read off the requests alone: each live entry has the deadline last asked for it, the time of its addition or renewal plus the lifetime, and whatever was emitted had passed that deadline at its cleanup's time |
| LifeCycleSpec.EmittedInACleanup | src/lib/lifecycle_mgr.go:72-85 | The time of an emission is the time at which the cleanup then in progress was started |
| LifeCycleSpec.RemoveTakesFirst | src/lib/lifecycle_mgr.go:63-70 | A remove request takes out exactly the first match and keeps the rest in order |
| LifeCycleSpec.UninterruptedCleanup | src/lib/lifecycle_mgr.go:72-85 | Left alone with room on the channel, the stepwise cleanup leaves exactly the survivors and emits exactly the expired values, both in order |
| LifeCycle.LifeCycleMgr.AddInternal | src/lib/lifecycle_mgr.go:53-61 | The add step of the specification: a fresh element at the end of the list, with its deadline |
| LifeCycle.LifeCycleMgr.RemoveInternal | src/lib/lifecycle_mgr.go:63-70 | The remove step of the specification: the loop goes on after a match, but an unlinked element has no successor, so exactly the first match is cut |
| LifeCycle.LifeCycleMgr.Scan | src/lib/lifecycle_mgr.go:74-84 | One turn of the cursor up to the send is the scan step: step over, unlink and keep to send, or leave the loop |
| LifeCycle.LifeCycleMgr.Emit | src/lib/lifecycle_mgr.go:80 | The send, possible when the channel has room, or a listener when it has no buffer, is the emit step |
| LifeCycle.LifeCycleMgr.Cleanup | src/lib/lifecycle_mgr.go:72-85 | The whole cursor loop over a channel of any size, also none, waiting for the listener wherever it is full: the survivors are left and the expired values are received or queued, all in order |
| LifeCycle.LifeCycleElement.Expired | src/lib/lifecycle_mgr.go:38-40 | An element reports itself expired exactly when a cleanup at that time would drop it |
| QueueSpec.DeliveredThenContentsIsEnqueued | www/lib/tmcs-anonymous/src/util.ts:65-133 | Over every run, delivered followed by stored elements is what was enqueued, and the i-th fulfilled promise carries the i-th enqueued element, across rejections; a stored awaiter implies an empty queue and no promise is settled twice |
| QueueSpec.LostPromiseIffOverlap | www/lib/tmcs-anonymous/src/util.ts:121-132 | Some promise is pending without being stored exactly when a dequeue was issued while an earlier one was still waiting |
| QueueSpec.RejectionRejects | www/lib/tmcs-anonymous/src/util.ts:94-101 | After a rejection nobody is stored, the promise that was stored is rejected, every other promise and all elements are as before, and the next element stays in the queue |
| QueueSpec.RejectedIffStored | www/lib/tmcs-anonymous/src/util.ts:94-101 | Over every run, a promise is rejected exactly when it was the stored one at some rejection |
| QueueSpec.StepKeepsInvariant | www/lib/tmcs-anonymous/src/util.ts:73-132 | Each operation keeps the awaiter discipline and adds exactly its own element |
| LinkedQueue.Queue.Enqueue | www/lib/tmcs-anonymous/src/util.ts:73-93 | The rewired list represents the old sequence with the element at its end, handed on at once when an awaiter is stored |
| LinkedQueue.Queue.DequeueInternal | www/lib/tmcs-anonymous/src/util.ts:112-120 | Unlinks and returns the first element; the tail may go stale only when the list becomes empty |
| LinkedQueue.Queue.ResolveDequeue | www/lib/tmcs-anonymous/src/util.ts:102-111 | Clears both callbacks and resolves the stored promise with the first element |
| LinkedQueue.Queue.Dequeue | www/lib/tmcs-anonymous/src/util.ts:121-132 | A new promise, fulfilled with the first element or stored as the awaiter in place of any earlier one |
| LinkedQueue.Queue.RejectAwaiter | www/lib/tmcs-anonymous/src/util.ts:94-101 | Rejects the stored promise, if any, and touches no element |
| EventSpec.ExactlyOnceIffNoNullFlush | www/lib/tmcs-anonymous/src/event.ts:7-46 | Over every run, arguments passed to listeners followed by queued ones are the arguments triggered, in order and once each, exactly when no null listener is installed over waiting events; a set listener always implies an empty queue |
| EventSpec.EveryEventHasItsFate | www/lib/tmcs-anonymous/src/event.ts:7-46 | Over every run, read off the calls alone: each event was passed, in order, to the listener of its moment or else to the first one installed after it, was refused when that was none, or still waits; and the listener is the last one installed and not taken away |
| EventSpec.DispatchAllEffect | www/lib/tmcs-anonymous/src/event.ts:10-14 | Flushing passes every queued argument in order, or rejects every one when there is no listener |
| EventTrigger.PromiseEventTrigger.On | www/lib/tmcs-anonymous/src/event.ts:7-15 | Installs the listener and flushes the queue by a loop |
| EventTrigger.PromiseEventTrigger.Trigger | www/lib/tmcs-anonymous/src/event.ts:20-34 | Calls the listener now, or queues the argument |
| AggregateSpec.ShownCorrectly | www/lib/tmcs-anonymous/src/session.ts:38-61 | For any number of recipients and any order of receipts, one scheduler turn later the display is Received exactly when every recipient's first decisive receipt is Received, Failed exactly when one is not, and a settled display does not change |
| AggregateSpec.ShownAtLastTurn | www/lib/tmcs-anonymous/src/session.ts:38-61 | A receipt alone changes no display: what is shown is what the last scheduler turn has shown |
| AggregateSpec.SettledByFirstDecisive | www/lib/tmcs-anonymous/src/session.ts:42-53 | Each recipient's promise is settled by that recipient's first decisive receipt, read off the events alone |
| AggregateSpec.NeverChangesAgain | www/lib/tmcs-anonymous/src/session.ts:54-61 | Whatever follows, a settled display stays |
| AggregateSpec.SingleBitCodes | src/tmcs_msg/tmcs_msg.pb.go:58-65 | With single-bit codes the bit tests of the listener are comparisons: only Received resolves and only pending waits |
| AggregateSpec.EveryBitCounts | www/lib/tmcs-anonymous/src/session.ts:46-52 | For codes of several bits too: the received bit resolves, without it the pending bit waits, and a code with neither refuses |
| AggregateSend.AggregateMessage.OnStateChange | www/lib/tmcs-anonymous/src/session.ts:46-52 | The listener's two bit tests, each promise settled once |
| AggregateSend.AggregateMessage.ContinueAfterAll | www/lib/tmcs-anonymous/src/session.ts:42-60 | Waiting for all promises ends at the first refusal or when all are resolved |
| CloseSpec.CloseIsSafe | src/user/session.go:51-62 | In every interleaving of both loops and any number of Close calls, at most one has an effect, no send on the two-slot channel blocks or hits a closed channel, and it is closed at most once |
| CloseSpec.BothLoopsCanExit | src/user/session.go:104-119 | After an effective Close both loops can take their exit branch, from wherever they are |
| CloseSpec.ExitedMeansClosed | src/user/session.go:51-74 | In every run, when a loop has left, told to or by a failure, the session was closed by one effective call, its connection is closed, and the other loop has its exit |
| CloseSpec.ClosedIffCaused | src/user/session.go:51-74 | A session is closed exactly when somebody called for it, a read failed or the send loop failed |
| CloseSpec.OpenSessionGoesOn | src/user/session.go:57-64 | Until then both loops are there, and the receive loop can read and come back to read again |
| CloseSpec.TokensAccounted | src/user/session.go:355-366 | A close leaves one token for each loop, and each loop that leaves through the channel takes one |
| CloseSpec.SafeIffConnectionPresent | src/user/session.go:355-366 | All interleavings are safe exactly when the session has a connection; without one a second Close sends on a closed channel |
| CloseProtocol.Session.Close | src/user/session.go:355-366 | In any state whatever, what the channel operations do and what goes wrong with them is the specified step; in the states of a run nothing goes wrong |
| Messages.SignedMsgRoundTrip | www/src/proto/tmcs_msg_pb.js:309-411 | Decoding the bytes of any signed message returns it, with default fields omitted and negative numbers sign-extended |
| Messages.MessagePackRoundTrip | www/src/proto/tmcs_msg_pb.js:648-697 | Decoding the bytes of a pack of any number of nested messages returns it |
| Messages.ReceiptPackRoundTrip | www/src/proto/tmcs_msg_pb.js:1063-1112 | The same for receipt packs |
| Messages.MessageRoundTrip | www/src/proto/tmcs_msg_pb.js:811-891 | Decoding the bytes of any message returns it, with a 64-bit timestamp |
| Messages.MsgReceiptRoundTrip | www/src/proto/tmcs_msg_pb.js:1224-1282 | Decoding the bytes of any receipt returns it |
| Messages.SignedMsgMergeLaw | www/src/proto/tmcs_msg_pb.js:309-346 | Two encodings one after the other decode to the field-wise merge, where the later non-default field wins |
| Messages.MessagePackMergeLaw | www/src/proto/tmcs_msg_pb.js:648-666 | Two packs one after the other decode to the concatenation of their messages |
| Messages.ReceiptPackMergeLaw | www/src/proto/tmcs_msg_pb.js:1063-1081 | Two receipt packs one after the other decode to the concatenation of their receipts |
| Messages.MessageMergeLaw | www/src/proto/tmcs_msg_pb.js:811-840 | Two encoded messages one after the other decode to their field-wise merge |
| Messages.MsgReceiptMergeLaw | www/src/proto/tmcs_msg_pb.js:1224-1245 | Two encoded receipts one after the other decode to their field-wise merge |
| Messages.SignedMsgIgnoresUnknown | www/src/proto/tmcs_msg_pb.js:340-343 | A well-formed record of a field the message does not have, anywhere between its records and before any continuation, changes nothing |
| Messages.MessagePackIgnoresUnknown | www/src/proto/tmcs_msg_pb.js:660-663 | The same for message packs |
| Messages.ReceiptPackIgnoresUnknown | www/src/proto/tmcs_msg_pb.js:1075-1078 | The same for receipt packs |
| Messages.MessageIgnoresUnknown | www/src/proto/tmcs_msg_pb.js:834-836 | An unknown record anywhere in a message, before any continuation, changes nothing |
| Messages.MsgReceiptIgnoresUnknown | www/src/proto/tmcs_msg_pb.js:1239-1241 | An unknown record anywhere in a receipt, before any continuation, changes nothing |
| Messages.MessagePackIgnoresNestedUnknown | www/src/proto/tmcs_msg_pb.js:656-659 | A pack decodes to its messages although any of the nested ones, within their length prefixes, carry unknown records of their own |
| Messages.ReceiptPackIgnoresNestedUnknown | www/src/proto/tmcs_msg_pb.js:1071-1074 | The same for receipt packs |
| Wire.DecodeEncoded | www/src/proto/tmcs_msg_pb.js:309-346 | The reading loop over the bytes of any list of records, with anything behind them, folds them in order and goes on behind them |
| Wire.RecordRoundTrip | www/src/proto/tmcs_msg_pb.js:309-346 | Every record, in front of any bytes, parses back to itself and its exact length |
| Wire.ReadVarintRoundTrip | www/src/proto/tmcs_msg_pb.js:367-375 | Every 64-bit number reads back from its varint, in front of any bytes, within ten bytes |
| Wire.Int32RoundTrip | www/src/proto/tmcs_msg_pb.js:367-375 | Every signed 32-bit number survives sign extension to 64 bits and truncation back |
| WireFormat.VarintBytes | www/src/proto/tmcs_msg_pb.js:367-375 | The bytes written for a number are exactly those whose seven-bit groups, least significant first, sum to it, with the high bit on all but the last byte and no group too many |
| WireFormat.VarintRead | www/src/proto/tmcs_msg_pb.js:309-346 | The reader accepts exactly the bytes up to the first without the high bit, with their value |
| WireFormat.TwosComplement | www/src/proto/tmcs_msg_pb.js:367-375 | Negative numbers are written and read in two's complement, modulo 2^64 and 2^32 |
| WireFormat.RecordRead | www/src/proto/tmcs_msg_pb.js:309-346 | A record is read exactly when there is one: a tag of number and wire type 0, 1, 2 or 5 and its payload, written in whatever way the format allows |
| WireFormat.TagWritten | www/src/proto/tmcs_msg_pb.js:367-411 | A written record begins with eight times its number plus its wire type, in the shortest way |
| WireFormat.SignedMsgBytes | www/src/proto/tmcs_msg_pb.js:367-411 | A signed message is written as one record for each field that is not empty, numbers 1 to 6 in order: id, type, receiver, sender, body, signature |
| WireFormat.MessageBytes | www/src/proto/tmcs_msg_pb.js:861-891 | The same for messages, numbers 1 to 4: id, receiver, time, encrypted text |
| WireFormat.MsgReceiptBytes | www/src/proto/tmcs_msg_pb.js:1266-1282 | The same for receipts, numbers 1 and 2: id and state |
| WireFormat.MessagePackBytes | www/src/proto/tmcs_msg_pb.js:687-697 | A pack is written as one record with number 1 for each message, in order, around its bytes |
| WireFormat.ReceiptPackBytes | www/src/proto/tmcs_msg_pb.js:1102-1112 | The same for receipt packs |
| WireFormat.ReadingEnds | www/src/proto/tmcs_msg_pb.js:309-346 | Reading ends at the end of the bytes or at an end-group tag, and fails on anything that is not a record |
| WireFormat.MisfitsRefused | www/src/proto/tmcs_msg_pb.js:309-346 | A known field with another wire type is refused |
| WireFormat.ExampleMessage | www/src/proto/tmcs_msg_pb.js:367-411 | The bytes of one message with all six fields, id 300 among them |
| Serializer.SerializeSignedMsg | www/src/proto/tmcs_msg_pb.js:367-411 | The writer appends exactly the encoding, field by field |
| Serializer.SerializeMessagePack | www/src/proto/tmcs_msg_pb.js:687-697 | The loop over nested messages appends exactly the encoding of the pack |
| Serializer.SerializeReceiptPack | www/src/proto/tmcs_msg_pb.js:1102-1112 | The loop over nested receipts appends exactly the encoding of the pack |
| Serializer.SerializeMessage | www/src/proto/tmcs_msg_pb.js:861-891 | The writer of a nested message appends exactly its encoding |
| Serializer.SerializeMsgReceipt | www/src/proto/tmcs_msg_pb.js:1266-1282 | The writer of a nested receipt appends exactly its encoding |
| Serializer.DeserializeSignedMsg | www/src/proto/tmcs_msg_pb.js:309-346 | The loop over any buffer ends and returns what the decoding function says, errors included |
| Serializer.DeserializeMessage | www/src/proto/tmcs_msg_pb.js:811-840 | The same for messages |
| Serializer.DeserializeMsgReceipt | www/src/proto/tmcs_msg_pb.js:1224-1245 | The same for receipts |
| Serializer.DeserializeMessagePack | www/src/proto/tmcs_msg_pb.js:648-666 | The same for message packs, each nested message read by its own loop confined to its record |
| Serializer.DeserializeReceiptPack | www/src/proto/tmcs_msg_pb.js:1063-1081 | The same for receipt packs |
| Serializer.ThroughBuffers | www/test/openpgp.test.js:139-156 | End to end through real buffers: what the writers wrote, the readers read back, for every signed message and every pack |

## Left out

Relay and server

- OpenPGP keys, signing, encryption and armor: a handshake succeeds when the signer holds the key of the user found, and texts stay opaque.
- Fingerprints and cache keys are compared for equality only, so they are abstract names, with one name for the empty string of server reports.
- Errors reaching clients: reports name the empty sender, which is never registered, so no send loop writes them; the model states just that. The free text of a report, and the nil message of a report that fails to marshal, are not modelled.
- `handleMsg` and the RPC handlers: no loop calls them.
- `errorMessage`, `echo`, logging, the `lastActive` times, HTTP routing, invitation links and the web socket upgrade: input and output only.
- The users cache inside `Relay` processes set requests and cleanups; nothing in the server deletes a user.
- Contact limits, "one session per contact" and "no duplicate registration" are not claimed: the code does not keep them under races.
- CloseSpec.CloseIsSafe: the runs are those of a session that is never joined to another connection; `Join` leaves a session disconnected while its loops run. `Join` is present in `Relay` as one more receive and send loop.
- RelayExact.OrderKeptIffSettled: for a fingerprint that is cached. Renewals are steps that may happen at any moment; the code makes one after each frame a session handles or writes, and the runs that lose the order are not tied to that.
- The session object a user keeps, and data races between the Go loops: every channel operation and every handler body is one step.

Client

- Delivery.ReceiptComes: the receiver already has the sender as a contact; the answer to a contact request depends on the application.
- Protocol.NoFalseReceipt: for clients that follow their code, one incarnation for each fingerprint and message objects that are sent once; `ClientLaws.OnlyFreshMessagesKeepIndexing` shows that the last is needed.
- The numeric receipt codes: the client model names the receipt states; only `AggregateSpec` works on bits. The client library's own message definitions are not part of this model, and the code of "pending" is a parameter there.
- Event listeners inside `ClientHeap` are data: a contact request's listener is the user it opens a session with. Session and message events to the application are `EventTrigger`.
- The `connect` handshake on the client's side, reconnecting, reading of keys and fetching of the session key: input and output. A new connection is a step of `Protocol`.
- Decoding failures of a frame at the client: the handler logs them and changes nothing.

Queue, events, stores

- Elements enter the queue at `enqueue`; the order in which blobs finish reading before that is not modelled.
- EventTrigger.PromiseEventTrigger.On: listeners do not call back into the trigger while being called, and what a listener returns is not modelled.
- AggregateSpec.ShownCorrectly: the display changes one scheduler turn after the receipt that decides it; with no recipients it becomes Received.
- ObjectCache.ObjectCache.Get: no claim that an expired value is gone or that a set is visible at once; sets are queued, and steady traffic postpones cleanups.
- ObjectCache.ObjectCache.Set: a caller held up by a full channel gets back what it has still to send; when it goes on is up to the scheduler.
- Times are unbounded integers in the unit of the lifetimes; overflow of nanosecond durations is not modelled. A multi-read of the clock within one call is one reading.
- LifeCycle.LifeCycleMgr.Cleanup: on a channel without a buffer, sending and receiving are one step. The list is a sequence in which an element that was taken out has no successor, which is all that the loops use of it.
- The reply channels of `Add` and `Remove`, and stopping the loops by closing their channels.

Codec

- The primitive reader and writer library is not part of this model; its behaviour is taken from the Encoding specification. Start-group tags and a known field with another wire type are refused.
- Strings are their UTF-8 bytes, shorter than 2^32; enum fields decode as signed 32-bit numbers; 64-bit numbers are exact, not doubles.
- The other message types (`NewSession`, `Error`, `Notification`, handshakes): their readers and writers have the same shape and raise no new question.
- Agreement of the Go and JavaScript definitions: the JavaScript message id is a string here, as in the modelled file.
- The user interface, the console, configuration and the OpenPGP type declarations.
