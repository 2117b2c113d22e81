# Verified model of the signaling server and its media proxy

The signaling server connects clients of a video call: it hands out session ids, keeps sessions alive
while their clients are away, passes messages between sessions, and places media publishers on proxies.
This project models the parts of it that keep shared state consistent, and proves what every run keeps.

Most files hold two modules. The one ending in `Spec` has the state as a value, the steps as
functions and the theorems over all runs, where a run is any sequence of steps. The other one has the
class whose methods change fields in place as the server does; each method is proved to take its state
to the value that the step function gives. Waiting subscribers, the shutdown of the proxy and the
in-process bus are modelled as interleavings of many threads whose single steps are lock operations and
accesses to shared data.

| files | what they cover |
|---|---|
| `Recency`, `Lru` | the LRU cache: a linked ring with a map, refined to a recency sequence |
| `Base64Url`, `SessionIds`, `DecodeCache` | session ids and the sharded caches of decoded ids |
| `Notifier`, `Rendezvous` | waiters with generations, and subscribers that wait for their publisher |
| `HubSessions`, `SessionLimit`, `PendingMessages` | the life of a session, the backend's limit, queued messages |
| `ProxyRegistry`, `CreateRace`, `Shutdown` | the proxy's registry of media objects, the gap inside its create command, and its graceful shutdown |
| `LoopbackBus`, `TransientData`, `RoomUpdates` | delivery, replicated room data, out-of-order room updates |
| `Placement`, `ConnectionList`, `Discovery`, `StreamGauges` | choice of a proxy, the shared list of connections, the registry of proxies, stream gauges |

Nine properties that one would expect do not hold of the code as it is. Each has a lemma with a concrete
run and a second one with the exact condition under which the code does what is expected.

- A session is not always either connected or expiring: an unregister reads the client's session before it
  takes the hub's lock, so a resume in between leaves the session attached to a client and expiring
  (`StaleUnregisterExpiresResumedSession`, `StaleUnregister`).
- Housekeeping does not only close sessions that nobody uses: it releases the hub's lock between the test of
  the deadline and the close, so a resume in between loses its session
  (`StaleExpiryClosesResumedSession`, `StaleExpiry`).
- The queue of pending messages is not always in arrival order: what arrives during a replay is queued in
  front of what the replay puts back (`ArrivalOrderCanBreak`, `ReplayKeepsOrder`).
- `CompareAndSet` on transient data panics before the first value was set (`FirstCompareAndSetPanics`,
  `PanicsBeforeFirstSet`).
- A listener that reads its initial data late is told old values it does not hold, because the initial
  message refers to the live map (`LateInitialBreaksOldValue`, `LateOldValues`).
- Sorting the connections drops one that is added between reading and storing the list
  (`SortDropsConnection`, `StoreIsCompleteIff`).
- A subscriber that waits does not always block: once its key was notified or everything was reset, its
  context stays done, and it runs in circles as long as its publisher is absent
  (`OneWaiterSpins`, `SpinsIffWoken`).
- An object that the proxy registers is not always removed again: a create command stores it in the session
  and in the registry one after the other, and what takes it out of the session in between leaves it in the
  registry forever (`ClearedCreateLeaks`, `CreateLeaksIff`).
- A proxy whose address was taken is not registered when the address becomes free
  (`IgnoredClaimIsNotTakenUp`, `RegisteredIffGranted`).

## Model

| member | source | states |
|---|---|---|
| Recency.ContentsAreMostRecentlyTouched | lru.go:49-80 | after any trace of sets and gets a key is held if and only if it was touched and fewer than `size` other keys were touched since its last touch, where a get touches only on a hit |
| Recency.HeldValueIsLastSet | lru.go:49-80 | over any trace, the value of a held key is that of the last set of the key, never an older one |
| Recency.ApplyKeepsOthers | lru.go:49-80 | a set or get of one key may evict another key but never changes its value |
| Lru.LruCache.constructor | lru.go:41-47 | a new cache is empty and consistent |
| Lru.LruCache.Set | lru.go:49-67 | the linked ring and the map together refine the recency sequence: the key comes first, and the last one goes when a positive size is exceeded; both keep the same keys with one node each |
| Lru.LruCache.Get | lru.go:69-80 | a hit returns the stored value and moves the key to the front, a miss changes nothing |
| Lru.LruCache.Remove | lru.go:82-88 | exactly the given key disappears from ring and map |
| Lru.LruCache.RemoveOldest | lru.go:90-101 | exactly the least recently touched key disappears; nothing happens to an empty cache |
| Lru.LruCache.RemoveElement | lru.go:103-107 | removing a node removes the key it holds and no other |
| Lru.LruCache.Len | lru.go:109-113 | the length is that of the recency sequence |
| Lru.EntryList.MoveToFront | lru.go:52-56 | relinking pointers moves one element to the front of the ring and keeps the order of all others |
| Lru.EntryList.Remove | lru.go:103-107 | unlinking takes out one element and keeps the order of all others |
| Base64Url.DecodeOfEncode | hub.go:476-487 | padded base64url (section 5 of RFC 4648) decodes to the bytes it was made from, for every byte string |
| Base64Url.EncodeOfDecode | hub.go:476-487 | for a string that the lenient decoder accepts, encoding gives the string back if and only if it is canonical |
| Base64Url.EncodeAt | hub.go:486 | each group of three bytes, read as one number of 24 bits, becomes its four digits in base 64, and the positions without bits become equals signs |
| Base64Url.EncodeLength | hub.go:486 | four characters for every three bytes begun |
| Base64Url.DigitIsLetter | hub.go:478-486 | digit v is letter v of the URL-safe alphabet of section 5 of RFC 4648 |
| Base64Url.ValueIsPosition | hub.go:478 | a character has a value if and only if it is a letter of the alphabet, and then its position |
| Base64Url.DecodeAcceptsIff | hub.go:478-481 | decoding succeeds if and only if, line breaks apart, the string is quads of letters of which only the last has one or two equals signs at its end |
| Base64Url.QuadBytes | hub.go:478 | a quad decodes to the leading bytes of its digits, whatever the unused bits are |
| Base64Url.JoinIsBytesOf | hub.go:478 | the bytes of four digits are the bytes of the number they are in base 64 |
| SessionIds.ReverseInPlace | hub.go:483-485 | the swap loop reverses the array |
| SessionIds.ReverseSessionId | hub.go:476-487 | decode, reversal and encoding together are the reversal of ids, failing exactly for strings that are not quads of base64url |
| SessionIds.ReverseTwice | hub.go:476-487 | reversing twice gives the canonical form of the id, so the id itself if and only if it is canonical |
| SessionIds.ReverseRoundTrip | hub.go:476-503 | for every byte string, reversing its encoding is the encoding of the reversed bytes, and reversing again gives it back |
| SessionIds.EncodedIdDecodes | hub.go:489-503 | an id encoded for some data and session type decodes to that data for that type |
| SessionIds.PublicIdsAreReversed | hub.go:489-503 | a private id is the cookie itself, and a public id holds the cookie's bytes in reverse order |
| SessionIds.FnvOfA | hub.go:505-510 | the hash that selects a cache has the published FNV-1a value of a known input |
| SessionIds.CacheKeyInjective | hub.go:517-537 | two pairs of id and session type share a cache key only if they are equal |
| DecodeCache.CacheIsInvisible | hub.go:489-558 | after any history of registrations, decodes, invalidations and evictions over the sharded caches, decoding returns exactly what decoding without a cache returns |
| DecodeCache.DecodeTransparent | hub.go:532-558 | a decode returns the uncached value and leaves only values in the caches that equal their decode |
| DecodeCache.RegisterTransparent | hub.go:522-530 | storing the ids of a new session keeps every cached value equal to its decode |
| DecodeCache.InvalidateForgets | hub.go:512-520 | after any history that starts with empty caches an invalidated id is forgotten and no other id of either type is |
| DecodeCache.SetDecodedIsFound | hub.go:522-530 | a stored id is found again at once, and whatever else is still found has not changed |
| DecodeCache.DecodeIsCached | hub.go:532-558 | a decoded id is cached afterwards, a failed decode changes no cache, and other ids are unchanged or evicted |
| DecodeCache.RegisterIsCached | hub.go:770-771 | both ids of a new session are found in the caches at once |
| DecodeCache.DecodeCaches.constructor | hub.go:207-210 | the hub starts with the configured number of empty caches |
| DecodeCache.DecodeCaches.InvalidateSessionId | hub.go:512-520 | the entry of one id and type goes from its own cache, all other caches stay |
| DecodeCache.DecodeCaches.SetDecodedSessionId | hub.go:522-530 | the value is stored under its own key in its own cache, the others stay; an empty id stores nothing |
| DecodeCache.DecodeCaches.DecodeSessionId | hub.go:532-558 | looks in the right cache first, decodes and stores on a miss, stores nothing on failure |
| DecodeCache.DecodeCaches.DecodeCookie | hub.go:543-554 | the path without the cache: reversal for public ids, then the cookie of the type |
| NotifierSpec.WokenIffNotified | notifier.go:52-122 | a waiter that was not released is woken if and only if its key was notified or everything was reset after its creation |
| NotifierSpec.ReleaseSparesOthers | notifier.go:98-111 | a release cancels no context but its own, leaves every other waiter uncancelled, and does nothing when it comes late or again |
| NotifierSpec.ReleaseEndsGeneration | notifier.go:98-111 | a release takes exactly its waiter out, and cancels the context if and only if it was the last |
| NotifierSpec.NewWaiterJoins | notifier.go:52-85 | a new waiter joins the members of its key and shares their context |
| NotifierSpec.RunKeepsInv | notifier.go:52-122 | after any run a key is known exactly when it has waiters, and no registered waiter is cancelled |
| Notifiers.Notifier.NewWaiter | notifier.go:52-85 | joins the live generation of the key or starts one |
| Notifiers.Notifier.Reset | notifier.go:87-96 | cancels every registered waiter and forgets all keys |
| Notifiers.Notifier.Release | notifier.go:98-111 | removes the waiter from its own generation and ends the generation with its last waiter |
| Notifiers.Notifier.Notify | notifier.go:113-122 | cancels exactly the waiters of the key and forgets it |
| Rendezvous.NoSubscriberParks | mcu_janus.go:980-1005 | in every interleaving of subscribers, publishers, closes and reconnects, whenever the lock is free, a subscriber in its wait loop whose publisher is registered has been woken already |
| Rendezvous.SubscriberReturnsPublisher | mcu_janus.go:980-1005 | from such a state its own next steps make it return the registered publisher |
| Rendezvous.SubscriberReturnsRegistered | mcu_janus.go:980-1005 | in every interleaving a subscriber that has returned a publisher returned one that was registered under its key during the run, and one that has returned nothing had its own caller give up |
| Rendezvous.ReturnReleases | mcu_janus.go:991 | a subscriber that returns gives its waiter back |
| Rendezvous.GivingUpReturns | notifier.go:36-43 | a waiting subscriber whose caller gives up returns nothing |
| Rendezvous.PublishersAreFold | mcu_janus.go:827-830 | in every interleaving the publisher under a key is what the inserts, deletes and clears of the run have made of it |
| Rendezvous.InsertsItsOwn | mcu_janus.go:827-830 | a publishing call inserts the publisher it was made for, under its own key |
| Rendezvous.PublishAlone | mcu_janus.go:827-830 | an undisturbed publishing call registers its publisher, wakes all waiters of the key and releases the lock |
| Rendezvous.CloseAlone | mcu_janus.go:924-926 | an undisturbed close removes exactly its key |
| Rendezvous.ReconnectAlone | mcu_janus.go:252-257 | an undisturbed reconnect removes all publishers and wakes all waiters |
| Rendezvous.SpinsIffWoken | mcu_janus.go:993-1004 | in every interleaving a waiting subscriber runs in circles instead of blocking if and only if its publisher is absent and its key was notified or everything reset since it got its waiter |
| Rendezvous.DoneIffWoken | notifier.go:36-43 | in every interleaving a subscriber's context is done if and only if its key was notified or everything reset since it got its waiter |
| Rendezvous.ReconnectMakesWaitersSpin | mcu_janus.go:252-257 | a reconnect makes every waiting subscriber run in circles |
| Rendezvous.OneWaiterSpins | mcu_janus.go:993-1004 | a concrete run with one subscriber and one reconnect |
| Rendezvous.LockExcludes | mcu_janus.go:827-830 | at most one call is inside a critical section of the MCU lock |
| Rendezvous.RunKeepsInv | mcu_janus.go:252-257 | in every interleaving an unnotified registered key belongs to the publisher that holds the lock, and no waiting subscriber has lost its waiter |
| HubSpec.LifecyclePartition | hub.go:694-793 | in every reachable state a registered client session is connected or expiring and never both, nothing else is either, and `client.session` and `session.client` are mutual inverses |
| HubSpec.LifecycleIsAutomaton | hub.go:618-918 | in every run each session moves on its own through unborn, live, expiring and gone: only an accepted hello on a free connection brings it to life, only the disconnect of its own client starts its 30 seconds, only a resume on a free connection with its own private id and number ends them, and only a bye, a close or a passed deadline removes it |
| HubSpec.ClientIsAutomaton | hub.go:694-918 | in every run each client moves on its own: which session it has and whether it is closed follow from the steps that concern it |
| HubSpec.IdentityIsFixed | hub.go:694-773 | no step changes the number, the kind or the private id of a session |
| HubSpec.NewSessionIs | hub.go:731-757 | a new session is recorded with the next number but one, the kind and private id asked for, and its client |
| HubSpec.CounterStep | hub.go:681-711 | an authenticated registration takes two numbers, a virtual session one, and nothing else any |
| HubSpec.RemovedStaysRemoved | hub.go:618-635 | a session that was removed at some point of a run is never registered again |
| HubSpec.TakeoverNeverExpires | hub.go:867-918 | after a resume that takes a session over from another client, that client never starts its expiry or removes it by leaving, whatever steps come in between, unless it resumes the session itself |
| HubSpec.DisconnectAfterTakeover | hub.go:775-793 | a disconnect of the previous client directly after the takeover changes no session and no map of the hub |
| HubSpec.StaleExpiry | hub.go:572-583 | with any steps between the test of the deadline and the close, the close takes the session away from a client that is using it if and only if a resume has attached one that has not left since |
| HubSpec.StaleExpiryClosesResumedSession | hub.go:572-583 | a concrete run in which a resume slips in and its session is closed although the client is connected |
| HubSpec.StaleUnregister | hub.go:775-793 | when other handlers run between reading the session and taking the lock, unregistering keeps the partition if and only if the session is still registered and not attached to another client |
| HubSpec.StaleUnregisterExpiresResumedSession | hub.go:775-793 | a concrete run in which a resume slips in and housekeeping then closes a session whose client is connected |
| HubSpec.RunKeepsInv | hub.go:618-793 | the whole session invariant holds after every run without wraparound of the session counter |
| Hubs.Hub.constructor | hub.go:311-325 | the hub starts without sessions, which satisfies the invariant |
| Hubs.Hub.NextSid | hub.go:681-691 | session numbers count up modulo 2^64 and skip zero |
| Hubs.Hub.SetClient | clientsession.go:548-568 | attaches the client in both directions, detaches the one it takes over from and returns it; nothing changes and nothing is returned for the client that is attached already |
| Hubs.Hub.ClearClient | clientsession.go:524-535 | detaches in both directions, and only the given client |
| Hubs.Hub.CloseSession | clientsession.go:371-396 | a closed session is in none of the hub's maps and has no client, and the invariant is kept |
| Hubs.Hub.ProcessRegister | hub.go:694-773 | registers the session in all maps or, when it is refused, in none |
| Hubs.Hub.ProcessResume | hub.go:867-918 | succeeds if and only if the connection is free and the id decodes to a registered client session whose private id it is, and keeps the invariant |
| Hubs.Hub.ProcessUnregister | hub.go:775-793 | starts the expiry of the client's session if it is still its own |
| Hubs.Hub.ExpireSession | hub.go:572-583 | tests the deadline and, if it has passed, closes the session as the other handlers have left it in the gap; the invariant is kept |
| Hubs.Hub.CheckExpiredSessions | hub.go:572-583 | a turn of housekeeping that is not disturbed closes exactly the expiring sessions whose deadline has passed |
| SessionLimitSpec.LimitHolds | hub.go:739-757 | at every moment of every run the limited sessions in the hub are among those the backend counts, which never exceed the limit |
| SessionLimitSpec.RefusedIffFull | backend_configuration.go:77-99 | in every run, with any limit and for either kind of session, a session is refused if and only if there is a limit, it counts, and exactly as many sessions count as the limit allows |
| SessionLimitSpec.OnlyCountedAreRefused | backend_configuration.go:83-86 | a backend without a limit never refuses, and a session that does not count is never refused |
| SessionLimitSpec.SessionStep | hub.go:739-757 | a session enters the hub only after it was added, and leaves it when it is closed |
| SessionLimitSpec.CloseStep | clientsession.go:371-396 | a close leaves the hub first and the backend second |
| SessionLimitSpec.NothingLeaks | clientsession.go:371-396 | when no registration is under way and every close that has left the hub has also left the backend, the backend counts exactly the hub's limited sessions |
| Backends.Backend.AddSession | backend_configuration.go:77-99 | refuses if and only if the session counts, there is a limit and it is reached; counts the session if there is a limit for it; never exceeds a limit that was kept before |
| Backends.Backend.RemoveSession | backend_configuration.go:101-106 | the session no longer counts |
| PendingSpec.MessagesConserved | clientsession.go:628-667 | in every run, with replays failing at any point, every message handed to the session is delivered, queued, in a batch under way or a dropped chat refresh, exactly once; both flags describe the queue and it has at most one chat refresh |
| PendingSpec.StoreKeepsQueueOk | clientsession.go:1023-1039 | a message is dropped if and only if it is a chat refresh and another one is queued |
| PendingSpec.ReplayKeepsOrder | clientsession.go:1186-1213 | for any queue and any batch, with any number of replays under way, the queue is in arrival order after a replay if and only if it was before and the messages that go back are newer than all queued ones and in order among themselves |
| PendingSpec.ReplayReturns | clientsession.go:1186-1213 | a replay appends to the queue exactly the refused messages of the batch, without a chat refresh beside a queued or an earlier refused one, in the order of the batch |
| PendingSpec.ReplayDelivers | clientsession.go:659-667 | a replay delivers exactly the accepted messages, behind all delivered before and in order |
| PendingSpec.SendStep | clientsession.go:628-637 | a message goes to a client that takes it and nowhere else, is dropped as a second chat refresh, or joins the end of the queue |
| PendingSpec.StepsAre | clientsession.go:1186-1201 | what each step does to the client, the messages handed over and the batches under way |
| PendingSpec.ArrivalOrderCanBreak | clientsession.go:1186-1213 | a concrete run after which the queue is out of order |
| PendingSpec.ArrivalOrderKept | clientsession.go:628-667 | in every run in which nothing is queued while a batch is under way, the queue stays in arrival order, also when replays fail midway |
| PendingMessages.ClientSession.StorePendingMessage | clientsession.go:1023-1039 | the message joins the queue and sets its flags, or is dropped as a second chat refresh |
| PendingMessages.ClientSession.SendMessageUnlocked | clientsession.go:628-637 | a message that the client does not take is queued |
| PendingMessages.ClientSession.SendMessages | clientsession.go:659-667 | sends all messages in order, also after some could not be sent |
| PendingMessages.ClientSession.TakePending | clientsession.go:1186-1201 | empties the queue with its flags and asks for the participants exactly when the queue had no update of them |
| PendingMessages.ClientSession.NotifySessionResumed | clientsession.go:1186-1213 | replays the whole queue and keeps its flags exact |
| ProxyRegistrySpec.MapsAreInverse | proxy/proxy_server.go:962-985 | after any run `clients` and `clientIds`, and both maps of each session, are mutual inverses |
| ProxyRegistrySpec.GaugesAreCounts | proxy/proxy_server.go:653-750 | each gauge is the number of registered objects that it counts |
| ProxyRegistrySpec.RemovedExactlyOnce | proxy/proxy_session.go:213-321 | whichever of delete command, close callback, session expiry and MCU disconnect wins, no object is removed twice, and every object created is either registered or removed |
| ProxyRegistrySpec.ObjectIsAutomaton | proxy/proxy_session.go:213-321 | in every run each object is created once, is held by one session, and is removed by the first delete, close callback or clear that finds it; every later one leaves it removed |
| ProxyRegistrySpec.SessionsAndShutdown | proxy/proxy_server.go:371-391 | a session has both of its tables from the start and never loses one, and shutdown is never taken back |
| ProxyRegistrySpec.DeletesOnlyItsOwn | proxy/proxy_server.go:695-764 | a delete command succeeds if and only if the session itself owns the registered object of that kind |
| ProxyRegistrySpec.NothingLeaks | proxy/proxy_session.go:291-321 | once all sessions are empty and no clear is under way, nothing is registered |
| CreateRaceSpec.CreateLeaksIff | proxy/proxy_server.go:653-654 | for a create command on any reachable state and any steps between its two critical sections, the object leaks if and only if it was taken out of the session and its background delete, if any, came before the registration; otherwise the command ends as if it were one step, or its object is about to be cleared |
| CreateRaceSpec.LostIff | proxy/proxy_session.go:213-305 | that happens if and only if a close callback comes before any clear of the session, or a background delete of the object after one |
| CreateRaceSpec.LeakIsForever | proxy/proxy_server.go:962-985 | a leaked object stays registered whatever happens |
| CreateRaceSpec.ClearedCreateLeaks | proxy/proxy_session.go:291-305 | a concrete run in which a session is cleared while its first publisher is created |
| ProxyRegistry.ProxyServer.CreateCommand | proxy/proxy_server.go:634-694 | stores the object in session and registry and counts it; publishers are refused during shutdown |
| ProxyRegistry.ProxyServer.DeleteCommand | proxy/proxy_server.go:695-764 | removes the object from registry, session and gauge, or from none of them |
| ProxyRegistry.ProxyServer.DeleteClient | proxy/proxy_server.go:969-985 | removes the object from both maps and tells whether it was registered |
| ProxyRegistry.ProxyServer.DeleteFromSession | proxy/proxy_session.go:255-289 | removes the object from both maps of the session and returns its id there |
| ProxyRegistry.ProxyServer.ObjectClosed | proxy/proxy_session.go:213-245 | the close callback removes what is still there and counts it once |
| ProxyRegistry.ProxyServer.ClearTable | proxy/proxy_session.go:291-321 | takes all objects out of a session and hands each to a background delete |
| ProxyRegistry.ProxyServer.ClearOne | proxy/proxy_session.go:291-321 | a background delete removes an object unless something else did before |
| Shutdown.SignalNeverLost | proxy/proxy_server.go:371-391 | in every interleaving, once shutdown is scheduled, the registry is empty and no schedule or delete is in progress, the signal has been sent |
| Shutdown.SignalIsJustified | proxy/proxy_server.go:969-985 | a signal is only sent if at some moment the flag was set while the registry was empty |
| Shutdown.ScheduleAlone | proxy/proxy_server.go:371-391 | an undisturbed schedule sets the flag and signals if and only if it is the first and no client is left |
| Shutdown.DeleteAlone | proxy/proxy_server.go:969-985 | an undisturbed delete removes its client and signals if and only if it was the last and shutdown is scheduled |
| Shutdown.StoreAlone | proxy/proxy_server.go:962-967 | storing adds its client and never signals |
| BusSpec.DeliveryIsOrdered | natsclient_loopback.go:53-88 | in every run a subscription receives messages of its own subject only, in publication order and each at most once |
| BusSpec.MissingOnlyFor | natsclient_loopback.go:53-171 | a published message is missing if and only if it is still queued, the bus was closed, the subscription was absent when it was dequeued, its channel was full, or its send is still to come |
| BusSpec.NothingAfterUnsubscribe | natsclient_loopback.go:107-148 | once a subscription is cancelled, no message dequeued later ever reaches it |
| BusSpec.NoEmptySubject | natsclient_loopback.go:112-148 | no subject ever keeps an empty set of subscribers |
| BusSpec.BadSubjectMeans | natsclient_loopback.go:112-115 | a subject is bad if and only if it has a space in it or a dot at its end |
| BusSpec.PublishStep | natsclient_loopback.go:150-171 | a message is queued behind all others if and only if its subject is good and the bus is open |
| BusSpec.DequeueStep | natsclient_loopback.go:53-76 | an idle loop takes the oldest message for exactly the subscriptions of its subject |
| BusSpec.OfferStep | natsclient_loopback.go:77-87 | a message is offered once, and received unless the channel is full |
| BusSpec.DroppedOnlyWhenFull | natsclient_loopback.go:77-87 | nothing is dropped but by an offer to a full channel |
| BusSpec.PresenceStep | natsclient_loopback.go:112-148 | a subscription appears when it is made and disappears when it is cancelled or the bus closes |
| LoopbackBus.LoopbackNatsClient.Publish | natsclient_loopback.go:150-171 | queues the message at the end, or fails for a bad subject or a closed bus |
| LoopbackBus.LoopbackNatsClient.Subscribe | natsclient_loopback.go:112-136 | adds a new subscription to its subject, or fails for a bad subject or a closed bus |
| LoopbackBus.LoopbackNatsClient.Unsubscribe | natsclient_loopback.go:138-148 | removes the subscription, and the subject with its last one |
| LoopbackBus.LoopbackNatsClient.ProcessMessage | natsclient_loopback.go:69-88 | takes the oldest message and offers it to all its subscribers, in whatever order they are visited |
| LoopbackBus.LoopbackNatsClient.Close | natsclient_loopback.go:90-98 | drops all subscriptions and stops the processing |
| TransientSpec.ListenersMirrorData | transient_data.go:44-177 | after any run, replaying a registered listener's messages from an empty map gives exactly the current data however late its initial messages, which show the live map, are read; and when every message is read as it was sent, each names the old value that the mirror holds |
| TransientSpec.DataIsKeyHistories | transient_data.go:104-177 | after any run the data holds at each key what the sets, removes and compare operations on that key have made of it, whatever happened to other keys and listeners |
| TransientSpec.SetTells | transient_data.go:104-123 | a set reports a change, stores it and tells every listener if and only if the value is another one, and else does nothing |
| TransientSpec.RemoveTells | transient_data.go:149-161 | a removal does so if and only if there is a value, and setting nothing is a removal |
| TransientSpec.CompareTells | transient_data.go:127-177 | the compare operations do so if and only if the current value is the expected one |
| TransientSpec.ListenerStep | transient_data.go:74-100 | a listener is told the data when it registers unless there is none, and is told nothing once it is removed |
| TransientSpec.PanicsBeforeFirstSet | transient_data.go:127-145 | a compare-and-set panics if and only if it would create a value before any set has stored one |
| TransientSpec.FirstCompareAndSetPanics | transient_data.go:127-145 | a compare-and-set of a new value on fresh data panics |
| TransientSpec.CreatedBySet | transient_data.go:104-123 | the data map exists if and only if some set stored a value |
| TransientSpec.LateListenersConverge | transient_data.go:74-92 | however late a registered listener of any run reads its initial messages, which show the live map, it ends with the current data |
| TransientSpec.LateOldValues | transient_data.go:44-92 | the messages after an initial message that is read late name the old values the mirror holds if and only if the live map has the same values at their keys as at the registration |
| TransientSpec.LateOldsMatchIff | transient_data.go:44-92 | for changes that follow the registration, all old values match after a late read if and only if the data read is the data at the registration |
| TransientSpec.LateInitialBreaksOldValue | transient_data.go:74-92 | a concrete run in which a late read is followed by an old value the mirror does not hold |
| TransientData.TransientData.Set | transient_data.go:104-123 | stores the value and tells every listener, or changes nothing when it is the same |
| TransientData.TransientData.CompareAndSet | transient_data.go:127-145 | stores the value only if the current one is as expected |
| TransientData.TransientData.Remove | transient_data.go:149-161 | removes the value and tells every listener, or changes nothing when there is none |
| TransientData.TransientData.CompareAndRemove | transient_data.go:165-177 | removes the value only if it is as expected |
| TransientData.TransientData.Notify | transient_data.go:44-71 | exactly the registered listeners receive the message |
| TransientData.TransientData.AddListener | transient_data.go:74-92 | a new listener is told the current data unless there is none |
| TransientData.TransientData.RemoveListener | transient_data.go:95-100 | the listener receives nothing more |
| RoomUpdatesSpec.HandledAreRecords | room.go:258-286 | in every interleaving the updates that reach the hub, taken or queued, are exactly those no older than any that arrived before, in order |
| RoomUpdatesSpec.PassedAreRecords | room.go:258-286 | of every other known request type exactly the requests no older than any of that type before are passed on, in order; of unknown types none is |
| RoomUpdatesSpec.RecordsAscend | room.go:258-286 | the handled updates have non-decreasing times |
| RoomUpdatesSpec.NewestWins | room.go:258-286 | of the updates with the greatest time the one that arrived last decides the properties |
| RoomUpdatesSpec.DrainedIsResult | hub.go:1918-1921 | once the channel is empty, the properties depend only on which updates arrived in which order |
| RoomUpdatesSpec.OrderIndependentIff | room.go:258-286 | the outcome is the same for every order of arrival if and only if the updates with the greatest time agree on the properties |
| RoomUpdatesSpec.UpdatesConverge | room.go:258-286 | two runs over the same updates with distinct times end with the same properties |
| RoomUpdatesSpec.PublishedFollowsProperties | room.go:400-420 | the last published properties are the current ones and no two in a row are equal |
| RoomUpdates.Room.ProcessBackendRoomRequest | room.go:258-286 | remembers the time per request type, ignores older requests, queues updates for the hub and passes the other known types on |
| RoomUpdates.Room.UpdateProperties | room.go:400-420 | stores and publishes changed properties only |
| RoomUpdates.Room.ProcessRoomUpdated | hub.go:1918-1921 | the hub applies the oldest update of its channel |
| PlacementSpec.ByTierIsPermutation | mcu_proxy.go:1832-1871 | sorting for a country loses, adds and duplicates no connection |
| PlacementSpec.ByTierIsSorted | mcu_proxy.go:1832-1871 | connections that come sorted by load leave sorted by group first and by load within a group |
| PlacementSpec.TierMeans | mcu_proxy.go:1832-1866 | the groups are the initiator's country, then known countries that share one of its continents or a continent these are mapped to, then the rest |
| PlacementSpec.GroupKeepsOrder | mcu_proxy.go:1832-1871 | within its group a connection comes behind exactly those that came before it |
| PlacementSpec.ClampMeans | mcu_proxy.go:1943-1953 | the bitrate is the one asked for if it is positive and within the limit of the stream type, and else that limit |
| PlacementSpec.AttemptsAre | mcu_proxy.go:1932-1968 | every connection that is not shutting down is tried once, in order |
| PlacementSpec.ShortcutChangesNothing | mcu_proxy.go:1844-1866 | skipping the continents for an unknown country or at most one remaining connection does not change the order |
| Placement.ContinentsOverlap | mcu_proxy.go:1817-1830 | true if and only if the two lists share a continent |
| Placement.SortConnectionsForCountry | mcu_proxy.go:1832-1871 | same country, then own or mapped continent, then the rest, each in the given order, where the groups are as TierMeans says |
| Placement.SplitByContinent | mcu_proxy.go:1844-1866 | separates exactly the connections that share an own or mapped continent from the others and keeps both orders |
| Placement.ChooseConnection | mcu_proxy.go:1932-1968 | the first connection that accepts and is not shutting down, after attempts on exactly the ones before it that are not shutting down, all with the same clamped bitrate |
| Placement.ProxyConnections.GetSortedConnections | mcu_proxy.go:1873-1904 | re-sorts by load on every tenth request or after a second, storing the sorted copy over whatever others have made of the list meanwhile, and always returns a permutation of the list it has read in the order for the initiator |
| ConnectionListSpec.StoreIsCompleteIff | mcu_proxy.go:1873-1897 | in every interleaving a request stores exactly what it has read, so the list is complete after that if and only if it was complete at the read and no connection was added since |
| ConnectionListSpec.UndisturbedIsComplete | mcu_proxy.go:1873-1897 | if no connection is added while a request is between reading and storing, the list always has every connection as often as it was added |
| ConnectionListSpec.SortDropsConnection | mcu_proxy.go:1873-1897 | a concrete run in which sorting drops a new connection |
| DiscoverySpec.MapsAreInverse | mcu_proxy.go:1649-1717 | after any sequence of puts, deletes and lost connections `keyInfos` and `urlToKey` are mutual inverses |
| DiscoverySpec.RegistryIsLeases | mcu_proxy.go:1649-1717 | seen from one address, the registry is a lease that only its owner gives up and that is only given out when free |
| DiscoverySpec.AddressIsNeverTaken | mcu_proxy.go:1669-1678 | an owner keeps its address over any run in which it neither moves nor is deleted |
| DiscoverySpec.OwnerChangesOnlyByRelease | mcu_proxy.go:1669-1678 | an address passes from one key to another only by being free in between |
| DiscoverySpec.RegisteredIffGranted | mcu_proxy.go:1649-1709 | the last value stored under a key is registered if and only if, when it arrived, its address was the key's own or was free with a connection to be had |
| DiscoverySpec.RegisteredWasStored | mcu_proxy.go:1649-1717 | every registered key was stored with that address, and no valid value and no delete came under the key since; an invalid value is ignored |
| DiscoverySpec.CheckValidMeans | api_proxy.go:269-277 | only an empty address is invalid, and any other is completed to end in a slash |
| DiscoverySpec.IgnoredClaimIsNotTakenUp | mcu_proxy.go:1669-1678 | a concrete run after which a stored key is not registered although its address is free |
| Discovery.ProxyDiscovery.AddEtcdProxy | mcu_proxy.go:1649-1702 | ignores invalid values, gives up the old address of a key that moved, and claims the new one if nobody else owns it |
| Discovery.ProxyDiscovery.RemoveEtcdProxy | mcu_proxy.go:1704-1709 | the key and its address are free afterwards |
| Discovery.ProxyDiscovery.RemoveEtcdProxyLocked | mcu_proxy.go:1711-1728 | removes the key with its own address from both maps |
| Discovery.ProxyDiscovery.RemoveConnection | mcu_proxy.go:1730-1753 | an address without connections is forgotten there and stays with its owner |
| StreamGaugesSpec.GaugesAreTotals | mcu_janus.go:611-682 | over any history of any number of publishers, each publisher gauge is the number of publishers with that stream type and each subscriber gauge the sum of their subscribers |
| StreamGaugesSpec.ChargeIsDifference | mcu_janus.go:611-682 | every action moves the gauges by exactly the change in its own counter; a reset removes exactly the counter's contribution |
| StreamGaugesSpec.CountersAreHistories | mcu_janus.go:611-682 | every counter holds the stream types and subscribers that its own history says, and a reset empties both |
| StreamGaugesSpec.GaugesReturnToZero | mcu_janus.go:618-629 | once no publisher has a stream type its gauges read zero, whatever came before |
| StreamGauges.PublisherStatsCounter.Reset | mcu_janus.go:618-629 | empties the counter and takes its share out of every gauge |
| StreamGauges.PublisherStatsCounter.EnableStream | mcu_janus.go:631-652 | switching a stream type moves its gauges once, switching it to what it is moves nothing |
| StreamGauges.PublisherStatsCounter.AddSubscriber | mcu_janus.go:654-669 | a new subscriber counts once for every enabled stream type |
| StreamGauges.PublisherStatsCounter.RemoveSubscriber | mcu_janus.go:671-682 | a known subscriber is taken out once for every enabled stream type |

## Left out

- Websockets, HTTP, the NATS server, etcd, DNS, GeoIP, Janus, JSON and SDP: what they answer is a parameter of the step that asks them.
- HMAC, JWT and the cookie codec: an abstract pair of functions of which only decode-after-encode is required.
- Clocks, timeouts and contexts of callers: a time is a parameter, an expired context a choice of the step.
- Message validation, permissions, logging and the metrics library: the gauges are maps of integers.
- Anonymous and dialout timeouts, the in-call list of a room, virtual sessions beyond their place in the hub's maps.
- Reload of the backend configuration (`UpsertHost`): it deletes from the slice it ranges over, so a reload is not equal to a fresh configuration for every input.
- Tear-down of publishers on a change of permissions: the early return after the video publisher skips the check of the screen publisher.
- Deadlock freedom of the proxy-side publisher waiters, which send on channels while holding a read lock.
- Agreement of the list of connections with `connectionsMap`, which is rebuilt only when the last connection of an address goes.
- Restoring of publishers after a reconnect to Janus: only the reset of the map and the notifier is modelled.
- HubSpec.RunKeepsInv: assumes that the 64-bit session counter does not wrap around; a registration takes two numbers.
- HubSpec.LifecyclePartition: each handler is one step; the gaps inside an unregister and inside housekeeping are the subjects of StaleUnregister and StaleExpiry.
- Hubs.Hub.CheckExpiredSessions: the whole loop without the gap before each close, which ExpireSession and StaleExpiry have.
- TransientSpec.ListenersMirrorData: what a late read does to the old values is the subject of LateOldValues.
- SessionLimitSpec.LimitHolds: a session is not closed before its own registration has finished.
- PendingSpec.MessagesConserved: filtering of messages comes before; a message counts as delivered when the client's own send answers true.
- Rendezvous.NoSubscriberParks: a close deletes by key, as the code does, also when another publisher has taken the key.
- ProxyRegistrySpec.RemovedExactlyOnce: a command is one step, and a clear of a session is one step followed by separate background deletes; the gap inside a create command is the subject of CreateRaceSpec.CreateLeaksIff.
- CreateRaceSpec.CreateLeaksIff: ids are never used twice, and the gauge goes up with the registration.
- Placement.ProxyConnections.GetSortedConnections: the library's sort is a parameter; other threads change the list but not the time of the next sort, and the request counter does not wrap around.
- ConnectionListSpec.StoreIsCompleteIff: removal of connections, which rebuilds the list only with the last connection of an address.
- Placement.ChooseConnection: whether a connection accepts is a fixed set; the registration of the publisher that follows is not modelled.
- RoomUpdates.Room.ProcessBackendRoomRequest: what the hub and the room do with the requests passed on to them, other than updates.
- DiscoverySpec.RegistryIsLeases: the timing of closing unused connections is a free step.
- Lru.EntryList.MoveToFront: `container/list` is modelled as the ring it is, without its checks for elements of other lists.
