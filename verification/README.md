# Livelier: a verified model

Livelier bridges Owncast and Nostr in both directions. Its difficult parts are state machines in
memory, driven by frames, timers and failures that come in any order. This project models those
machines in Dafny and proves what they keep over whole runs. Check everything with
`dafny verify dfyconfig.toml`.

## How it is built

Each machine has one module. A `State` datatype holds the fields of the source's object; an `Input`
is one stretch of code between two awaits, with whatever the outside world answers as a parameter;
`Enabled` says when it can occur and `Next` what it leaves. Runs are arbitrary sequences of enabled
inputs, so every interleaving of callbacks and timers is covered. A class in the same module carries
the source's fields and methods; each method is proved to take its `View()` to the `Next` state, loops
and re-entrant calls included. The theorems are about all runs. The ones whose names end in Exactly say what
a machine has come to from the inputs alone, in both directions.

| modules | what they are about |
|---|---|
| `ChatEvents`, `EchoFreedom` | bridge, relay and source as one system, across restarts |
| `RoomDelivery`, `Fingerprints`, `SenderPool` | delivery of one room in order, the duplicate guard, one paced sender |
| `Firehose` | the two standing subscriptions and the watchdog, with callbacks from inside close() |
| `OwncastListener`, `AuthedPublish` | the reconnecting source listener; the NIP-42 publish |
| `OwncastHtml`, `HtmlRoundTrip`, `HtmlDecoding` | the printer and the parser of Owncast HTML, and when they undo each other |
| `SourceReader`, `Regexes` | what an independent reader sees of the printed HTML; the rules of the parser against ECMAScript matching |
| `ContentTokens`, `ContentPipeline`, `MessageRoundTrip`, `BridgeProcessors` | the token pipeline, a whole message across it and back, and the processors of the bridge |
| `PipelineCompleteness`, `MessageDisplay` | what the processors take and leave of a message, and how it reads |
| `LoaderKeys`, `ReplaceableLoader`, `BatchLoading`, `QueryStats` | the fetch stack: keys, two tiers, batching, the query over many relays |
| `ProfileBackoff`, `ProfileCoordinator` | pacing, backoff and wake-ups of profile fetching |
| `Discovery` | the discovery cycle over the instance store |
| `Patterns`, `Doubling`, `Options` | what pattern scanners share; powers of two; values that may be absent |

Times are integers in milliseconds and never run backwards. Where a listing or a map is walked in no
particular order, the theorems hold for every order.

## What the code does not guarantee

Twelve claims that the source's comments or names suggest turn out to be conditional. Each has a lemma
with the exact condition, or a concrete run that shows the failure next to the guarantee that holds.

- A message that spells out an entity such as `&lt;` does not come back as written, because `&amp;`
  is decoded first (`HtmlDecoding.RoundTripExactly`, `LiteralEntityIsLost`).
- A close deferred to the health check is not rebuilt at the next check as such: only the echo and the
  silence rule are looked at there (`Firehose.CheckRebuildsExactly`, `DeferredCloseIsLeft`).
- The profile heartbeat forgets a key whose cooldown lapsed before it was scheduled
  (`ProfileCoordinator.RestWakesExactly`, `LapsedKeyIsAbandoned`).
- The `#d` condition of a batch filter narrows requests without a d as well
  (`ReplaceableLoader.FiltersReachAnswers`).
- The check that a room is still open does not cover the fetch of the emoji list inside sendMessage
  (`RoomDelivery.PooledAfterClose`, `EmojiOutlivesRoom`).
- Two different messages can count as the same one when a name holds a colon
  (`RoomDelivery.SameFingerprint`).
- The filter on the pool's own senders does not survive a restart of the process
  (`EchoFreedom.SourceEchoExactly`, `RestartForgetsSenders`).
- A message whose connection failed is not dropped but waits for the next message of its sender, and one
  that comes while a drain is ending is left behind in the same way (`SenderPool.StrandsExactly`).
- A message accepted for a sender is lost when its socket closes during the pause before it, and also when
  the late close event of an older socket clears the new one (`SenderPool.LostExactly`,
  `OrdinaryCloseLoses`, `StaleCloseLoses`).
- Destroying an instance does not always stop a drain under way (`SenderPool.DestroyedReturnsExactly`,
  `DestroyedSenderSends`).
- The fallback tier may replace an answer of the primary by an older one
  (`ReplaceableLoader.FallbackAgesExactly`, `LooseAnswerGivesWay`).
- A listed instance whose probe errs keeps its earlier misses, so the next miss may end it alone
  (`Discovery.ErrorsCarryMissesOver`, `EndsAfterOneMiss`).

## Model

| member | source | states |
|---|---|---|
| EchoFreedom.NoNostrEcho | packages/bridge/src/core/chat/chat-bridge.service.ts:386-390 | In every run of bridge, relay and source, with any replays and any restarts, no event under a key the bridge ever made is passed to sendMessage; everything it publishes for a source user is under such a key. |
| EchoFreedom.TrafficExactly | packages/bridge/src/core/chat/chat-bridge.service.ts:299-395 | Over any run with restarts, and from the inputs alone: what is passed to sendMessage is, in order, every chat message meant for an open room that is neither tagged by the bridge nor signed by a key it made since the last restart; what is published is, in order, every utterance of an outsider with something to say that is no repeat, under the key of its chatter, with its words, the address of its room and the client tag. |
| ChatEvents.FirstATagIsFirst | packages/bridge/src/core/chat/chat-bridge.service.ts:392-395 | The address of an event is the value of the first of its a tags, which later ones cannot replace. |
| EchoFreedom.SecondLayerAlone | packages/bridge/src/core/chat/chat-bridge.service.ts:389-390 | An event under a bridge key, stripped of its client tag, passes the filters if and only if the key was made before the last restart: the pubkey set suffices within one process lifetime. |
| EchoFreedom.SignedIsTagged | packages/shared/src/nostr/services/client.service.ts:1337-1340 | Every event signed for a bridged utterance carries the client tag of the bridge, as layer 1 needs. |
| EchoFreedom.NoSourceEcho | packages/bridge/src/sources/owncast/adapter.ts:125-138 | Nothing said or joined by a pool sender is ever published back by the process that registered that sender. |
| EchoFreedom.SourceEchoExactly | packages/bridge/src/sources/owncast/chat/chat-pool.ts:41-45 | The echo of a pool sender is dropped if and only if the sender was registered since the last restart. |
| EchoFreedom.RestartForgetsSenders | packages/bridge/src/sources/owncast/chat/chat-pool.ts:35-36 | A reachable state in which, after a restart, a replayed message of an old pool sender has been published: the registrations do not survive the process. |
| EchoFreedom.StepKeeps | packages/bridge/src/core/chat/chat-bridge.service.ts:348-356 | Every step keeps the four facts echo freedom rests on: tagged events, the exact key set, the exact id set, and that nothing has come back. |
| EchoFreedom.Bridge.ChatterSigner | packages/bridge/src/core/chat/chat-bridge.service.ts:348-356 | One key per chatter and room; a new key joins the layer-2 set in the same step. |
| EchoFreedom.Bridge.GetOwncastUserIds | packages/bridge/src/sources/owncast/chat/chat-pool.ts:41-45 | The set of user ids registered for an instance, collected by the loop. |
| EchoFreedom.Bridge.Register | packages/bridge/src/sources/owncast/chat/chat-pool.ts:101-122 | A cached registration is reused, otherwise the answer of the server is remembered under the sender. |
| EchoFreedom.Bridge.OnUtterance | packages/bridge/src/core/chat/chat-bridge.service.ts:299-356 | From a heard utterance, through the pool ids, the empty-text test and the fingerprint check, to the signed event: None, and nothing changed, exactly when it is ignored; otherwise the key of the chatter exists and is bridged, whatever publishing then comes to. |
| EchoFreedom.Bridge.OnNostrEvent | packages/bridge/src/core/chat/chat-bridge.service.ts:384-395 | Delivers exactly the events that pass kind, client tag, pubkey and room filters. |
| RoomDelivery.FifoDelivery | packages/bridge/src/core/chat/chat-bridge.service.ts:384-408 | For one Room object: at most one delivery is active, sends are in arrival order and at most once each, a delivery starts only when all before it have settled, and what is handed over is what arrived while the room was open and passed all the filters as they stood then, layer 2 included. |
| RoomDelivery.FilteredOnArrival | packages/bridge/src/core/chat/chat-bridge.service.ts:384-395 | The k-th delivery is the event of an arrival at which k deliveries were queued, the room was open and the filters, with the keys bridged by then, let it pass. |
| RoomDelivery.QuiescentMeansSettled | packages/bridge/src/core/chat/chat-bridge.service.ts:399-407 | When no link of the chain can take a step, every delivery has settled, whatever became of those before it. |
| RoomDelivery.LinksAreShort | packages/bridge/src/core/chat/chat-bridge.service.ts:412-426 | Each link takes at most five steps in any run: its steps so far and the awaits it has ahead never come to more. |
| RoomDelivery.FatesExactly | packages/bridge/src/core/chat/chat-bridge.service.ts:410-426 | What becomes of a delivery, by the inputs alone: handed over if and only if it is rendered while the room is open; given to the pool if and only if it then needs no emoji or they arrive; torn down if and only if it is rendered after the close; a repeat if and only if the same fingerprint was admitted, from either side, within 60 s and the last 500; failed or delivered if and only if an await or the pool said so. |
| RoomDelivery.MemoryIsHistory | packages/bridge/src/core/chat/chat-bridge.service.ts:310-420 | The queue is exactly the arrivals that passed while the room was open, and the offered fingerprints are exactly those of source messages with text and of resolved deliveries, by the inputs alone. |
| RoomDelivery.SameFingerprint | packages/bridge/src/core/chat/fingerprint.ts:15-17 | Two messages share a fingerprint if and only if name and words are the same, or a colon in a name can be taken for the one in between. |
| RoomDelivery.NothingHandedAfterClose | packages/bridge/src/core/chat/chat-bridge.service.ts:423-426 | Once the Room object has left the map it stays out, and sendMessage is never called for it again. |
| RoomDelivery.PooledAfterClose | packages/bridge/src/sources/owncast/adapter.ts:151-154 | Over any run from the close of a room on: at most one delivery was fetching its emoji then; if one was, that message and no other still reaches the pool, exactly when its emoji arrive; if none was, none does. |
| RoomDelivery.EmojiOutlivesRoom | packages/bridge/src/core/chat/chat-bridge.service.ts:423-426 | A run in which the room closes during that wait and the pool gets the message all the same: the check before sendMessage does not cover it. |
| RoomDelivery.StepKeepsInv | packages/bridge/src/core/chat/chat-bridge.service.ts:401-426 | Every step keeps the frontier of settled deliveries, the order of sends and the fingerprint log. |
| RoomDelivery.ChatRoom.HandleNostrEvent | packages/bridge/src/core/chat/chat-bridge.service.ts:384-408 | Filters an arriving event and appends it to the chain. |
| RoomDelivery.ChatRoom.OnName | packages/bridge/src/core/chat/chat-bridge.service.ts:413-420 | The fingerprint check on name and raw content, and what it leaves of cache and delivery. |
| RoomDelivery.ChatRoom.OnRendered | packages/bridge/src/core/chat/chat-bridge.service.ts:422-426 | The check that the room is still open, and the call of sendMessage. |
| RoomDelivery.ChatRoom.OnSourceChat | packages/bridge/src/core/chat/chat-bridge.service.ts:310-316 | The source side of the fingerprint check; empty messages are ignored. |
| RoomDelivery.ChatRoom.OnFailure | packages/bridge/src/core/chat/chat-bridge.service.ts:402-407 | A failure at any await settles its own delivery and touches nothing else. |
| Fingerprints.CacheRefinesLog | packages/bridge/src/core/chat/fingerprint.ts:20-46 | After any run of check-then-add with a forward clock, the log holds exactly the offers admitted, and the cache answers a lookup as that log does: last admission not longer than the TTL ago and fewer than 500 after it. |
| Fingerprints.RunConsistent | packages/bridge/src/core/chat/fingerprint.ts:33-46 | At every point of a run map order is time order, keys are distinct and the size is at most 500. |
| Fingerprints.FreshOfTail | packages/bridge/src/core/chat/fingerprint.ts:33-46 | In time order the fresh entries form a tail, so expiring and capping commute. |
| Fingerprints.FingerprintCache.Has | packages/bridge/src/core/chat/fingerprint.ts:20-28 | True exactly when a fresh entry holds the key; an expired one is deleted, nothing else changes. |
| Fingerprints.FingerprintCache.Add | packages/bridge/src/core/chat/fingerprint.ts:30-33 | The map after pruning and writing the key, an existing key keeping its place. |
| Fingerprints.FingerprintCache.Prune | packages/bridge/src/core/chat/fingerprint.ts:35-46 | Drops the expired entries, then the oldest until fewer than 500 remain. |
| Fingerprints.CheckThenAdd | packages/bridge/src/core/chat/chat-bridge.service.ts:313-316 | The idiom of both callers: one admission step on cache and log. |
| Firehose.HandleDiscipline | packages/bridge/src/core/chat/chat-bridge.service.ts:534-570 | In every reachable state each superseded handle was closed by the service exactly once and the current handle of each side never was, however close() calls back. |
| Firehose.HeldExactly | packages/bridge/src/core/chat/chat-bridge.service.ts:468-565 | From the end of the first refresh after a start until the next stop, with chat wanted, a local handle is held at every point and with network relays a network handle too; the network handle held has not been ended. |
| Firehose.NothingOverlooked | packages/bridge/src/core/chat/chat-bridge.service.ts:494-615 | Between the verdicts of the watchdog the log holds every start, publish, local event and check of the inputs, in order. |
| Firehose.CloseRebuildsExactly | packages/bridge/src/core/chat/chat-bridge.service.ts:494-529 | What a local close does, exactly: with a relay lost since the last rebuild or start, it puts a new handle, not yet ended, in the place of the old one unless the last rebuild is less than 30 s ago, which is put off; otherwise nothing. |
| Firehose.QuietExactly | packages/bridge/src/core/chat/chat-bridge.service.ts:494-615 | The time the silence rule starts from is that of the last local event, start or rebuild, and the count of lost relays that since the last start or rebuild, by the inputs. |
| Firehose.StopIsFinal | packages/bridge/src/core/chat/chat-bridge.service.ts:156-185 | After stop nothing is opened until the next start, not even by a refresh under way, and every handle is closed. |
| Firehose.RestartsHaveReasons | packages/bridge/src/core/chat/chat-bridge.service.ts:508-528 | A close-driven restart comes at least 30 s after the restart before it in the same service run; a restart is by the echo rule if and only if two consecutive checked windows missed since the last restart. |
| Firehose.CheckRebuildsExactly | packages/bridge/src/core/chat/chat-bridge.service.ts:579-615 | What one health check does, exactly: rebuild on the second miss in a row or after an hour of silence, and for no other reason. |
| Firehose.SilenceIsBounded | packages/bridge/src/core/chat/chat-bridge.service.ts:572-615 | With a check in every minute and no local event for an hour and a minute, the subscription has been rebuilt in between. |
| Firehose.DeferredCloseIsLeft | packages/bridge/src/core/chat/chat-bridge.service.ts:509-522 | A run in which a close is deferred to the health check, the next check runs, and the dead handle is still the current one. |
| Firehose.Subscriptions.CallClose | packages/bridge/src/core/chat/chat-bridge.service.ts:625-629 | close() with its synchronous callback: the re-entrant handler finds the reference gone and changes nothing. |
| Firehose.Subscriptions.OnLocalClosed | packages/bridge/src/core/chat/chat-bridge.service.ts:494-529 | The local close handler: threshold, restart floor, restart. |
| Firehose.Subscriptions.OnNetworkClosed | packages/bridge/src/core/chat/chat-bridge.service.ts:555-565 | The network close handler closes the current handle and opens another. |
| Firehose.Subscriptions.RestartNostrSub | packages/bridge/src/core/chat/chat-bridge.service.ts:618-632 | The state after a restart, with the old handle closed and a new one open. |
| Firehose.Subscriptions.CheckSubscriptionHealth | packages/bridge/src/core/chat/chat-bridge.service.ts:579-615 | One health check, meeting its specification. |
| Firehose.Subscriptions.Stop | packages/bridge/src/core/chat/chat-bridge.service.ts:173-184 | stop: both references dropped, then both handles closed. |
| Firehose.Subscriptions.EnsureNostrSub | packages/bridge/src/core/chat/chat-bridge.service.ts:479-484 | Opens a local subscription only when running, wanted and none is held. |
| SenderPool.PacedFifo | packages/bridge/src/sources/owncast/chat/chat-pool.ts:88-98 | The messages of a sender leave its queue in the order accepted, each once, at least 700 ms apart, however its socket comes and goes. |
| SenderPool.PauseIsNeeded | packages/bridge/src/sources/owncast/chat/chat-pool.ts:92-97 | A pause ends 700 ms after the last message that left, and none is begun unless that time is still to come. |
| SenderPool.LostExactly | packages/bridge/src/sources/owncast/chat/chat-pool.ts:88-98 | A message that left the queue was not sent if and only if, after the loop found its socket open or made a new one for it and before it was taken, that socket started to close, the instance was destroyed, or the close event of any socket of the sender came, which clears the reference whatever it holds by then. |
| SenderPool.SentUnlessBroken | packages/bridge/src/sources/owncast/chat/chat-pool.ts:88-98 | If none of that happens while a message is on its way, every message that left the queue was sent. |
| SenderPool.OneSocketAtATime | packages/bridge/src/sources/owncast/chat/chat-pool.ts:135-144 | If no socket is made before every older one has had its close event, none is ever left open that the sender does not hold, and during a handshake only a destroy can break the way of a message, aborting the handshake. |
| SenderPool.OrdinaryCloseLoses | packages/bridge/src/sources/owncast/chat/chat-pool.ts:93-96 | A run without destroy or failed connection in which a socket closes between two messages and the second is gone. |
| SenderPool.StaleCloseLoses | packages/bridge/src/sources/owncast/chat/chat-pool.ts:142-144 | A run without destroy, failure or pause in which a message dials while the old socket is closing, the late close event clears the new socket, the message is gone, and the new socket stays open with nobody holding it. |
| SenderPool.StrandsExactly | packages/bridge/src/sources/owncast/chat/chat-pool.ts:63-69 | When messages are left in the queue with nothing under way: exactly when a drain ends over a non-empty queue, which a failed connection or a send during the hand-off does cause. |
| SenderPool.NothingLeftBehind | packages/bridge/src/sources/owncast/chat/chat-pool.ts:81-99 | Without a failed connection and without a send during the hand-off, a resting connection has an empty queue. |
| SenderPool.FailedSendIsResumed | packages/bridge/src/sources/owncast/chat/chat-pool.ts:63-69 | After the next message of the sender, unless that leaves something behind in its turn, the loop rests only when everything accepted has left the queue, in order. |
| SenderPool.LoopIsShort | packages/bridge/src/sources/owncast/chat/chat-pool.ts:88-99 | The loop does come to rest: at most nine steps for each message accepted, whatever fails. |
| SenderPool.DestroyedReturnsExactly | packages/bridge/src/sources/owncast/chat/chat-pool.ts:72-99 | After destroyInstance, in some continuation the sender dials or sends again if and only if it was registering, or had more than one message queued and a socket that was open when its message set out or was cleared by a late close event during the handshake; one of its sockets opens in those cases and also when a cleared one was opening for a single message. |
| SenderPool.DestroyedSenderSends | packages/bridge/src/sources/owncast/chat/chat-pool.ts:72-75 | A run in which a sender destroyed while registering goes on to open a socket that nobody holds, and sends on it. |
| SenderPool.ChatterConn.DrainLoop | packages/bridge/src/sources/owncast/chat/chat-pool.ts:88-98 | The drain loop up to its next await. |
| SenderPool.ChatterConn.OnSend | packages/bridge/src/sources/owncast/chat/chat-pool.ts:60-69 | Queues a payload and starts a drain when none runs. |
| SenderPool.ChatterConn.OnRegistered | packages/bridge/src/sources/owncast/chat/chat-pool.ts:132-137 | The registration is answered: a socket is created and held, destroyed or not. |
| SenderPool.ChatterConn.OnConnected | packages/bridge/src/sources/owncast/chat/chat-pool.ts:92-98 | The loop behind connect: a pause if needed, no second look at the socket. |
| SenderPool.ChatterConn.OnCloseEvent | packages/bridge/src/sources/owncast/chat/chat-pool.ts:142-144 | The close handler clears the reference, whichever socket it holds. |
| SenderPool.ChatterConn.Destroy | packages/bridge/src/sources/owncast/chat/chat-pool.ts:72-75 | The socket held, if any, is asked to close, and the connection leaves the pool. |
| OwncastListener.NeverTerminal | packages/bridge/src/sources/owncast/chat/owncast-listener.ts:131-173 | Until stop exactly one attempt, socket or reconnect timer is outstanding, so dormancy is never terminal. |
| OwncastListener.FailureBudget | packages/bridge/src/sources/owncast/chat/owncast-listener.ts:272-289 | Fewer than five failures unless dormant; at most five fast dials between proofs of health, every later one at least 30 minutes after the mark before it; the delay in use never passes 240 s. |
| OwncastListener.BackoffExactly | packages/bridge/src/sources/owncast/chat/owncast-listener.ts:272-289 | The delay of a fast reconnect is 15 s doubled once for every fast redial since start or the last proof of health, exactly, and every fast redial lies that long behind the mark before it. |
| OwncastListener.DormantExactly | packages/bridge/src/sources/owncast/chat/owncast-listener.ts:131-289 | Until stop, the failures counted are exactly those since start or the last proof of health, and the listener is dormant if and only if there were five of them or chat was reported off since then. |
| OwncastListener.HealthIsUptime | packages/bridge/src/sources/owncast/chat/owncast-listener.ts:148-217 | Health is proven only when the socket opened half a minute ago at least and has not closed since. |
| OwncastListener.DialRate | packages/bridge/src/sources/owncast/chat/owncast-listener.ts:225-246 | Over any stretch without proof of health: at most five dials plus one per half hour. |
| OwncastListener.StopIsSilent | packages/bridge/src/sources/owncast/chat/owncast-listener.ts:120-129 | After stop no later step dials. |
| OwncastListener.StopClosesTheSocket | packages/bridge/src/sources/owncast/chat/owncast-listener.ts:138-147 | Wherever in a connect the stop landed, a socket still to close afterwards has been told to; nothing but stop closes one. |
| OwncastListener.StepKeepsInv | packages/bridge/src/sources/owncast/chat/owncast-listener.ts:107-289 | Every step keeps the budget, the timers and the single outstanding attempt. |
| OwncastListener.OwncastChatListener.Reschedule | packages/bridge/src/sources/owncast/chat/owncast-listener.ts:272-289 | scheduleReconnect: count, dormancy, doubling delay, one timer. |
| OwncastListener.OwncastChatListener.OnConfig | packages/bridge/src/sources/owncast/chat/owncast-listener.ts:131-142 | The answer of the config probe: dormant and re-armed, or on to registering unless stopped. |
| OwncastListener.OwncastChatListener.OnHealthyTimer | packages/bridge/src/sources/owncast/chat/owncast-listener.ts:207-217 | Proof of health clears failures, delay and dormancy. |
| OwncastListener.OwncastChatListener.OnSocketClose | packages/bridge/src/sources/owncast/chat/owncast-listener.ts:162-165 | A close reschedules, counting as failure only when health was not proven. |
| OwncastListener.OwncastChatListener.Stop | packages/bridge/src/sources/owncast/chat/owncast-listener.ts:120-129 | stop: both timers cleared, the socket held asked to close and let go. |
| HtmlDecoding.RoundTripExactly | packages/bridge/src/sources/owncast/chat/html.ts:20-31 | For every emoji map and every token list whose emoji tokens do not end in an equals sign, as no shortcode does, the parser gives back the display text of what the printer wrote if and only if that text is trimmed and spells out no entity other than `&amp;` and no numeric reference. |
| HtmlDecoding.ParseOfPrintedTokens | packages/bridge/src/sources/owncast/chat/html.ts:93-120 | What the parser makes of any such token list: the display text with the references it spells out decoded, trimmed. |
| HtmlDecoding.ParseOfPrintedText | packages/bridge/src/sources/owncast/chat/html.ts:66-69 | The same for plain text. |
| SourceReader.ReaderSeesTheTokens | packages/bridge/src/sources/owncast/chat/html.ts:93-120 | An independent reader of HTML sees of printed tokens exactly, in order: a url token with a web URL as its text under that URL, a mention as its text under the njump.me page of its npub, an emoji with a web image as the picture the instance has of it or as its text under that image, and everything else as bare text. |
| SourceReader.ReaderSeesTheText | packages/bridge/src/sources/owncast/chat/html.ts:66-69 | Of plain text the reader sees that text and no link. |
| SourceReader.LinksLeadToTheWeb | packages/bridge/src/sources/owncast/chat/html.ts:71-79 | No link that is printed leads anywhere but to http or https, whatever a token claims. |
| Regexes.RulesAreRegexes | packages/bridge/src/sources/owncast/chat/html.ts:22-29 | Each rule of the parser matches what the regular expression of the source matches, under the greedy, backtracking matching of ECMAScript, and replaces it by the same text. |
| Regexes.WebUrlIsRegex | packages/bridge/src/sources/owncast/chat/html.ts:71-74 | The test for what may become a link is the regular expression of the source. |
| HtmlDecoding.EntitiesUndone | packages/bridge/src/sources/owncast/chat/html.ts:26-28 | Decoding an escaped text is decoding the references the raw text spells out, `&amp;` excepted. |
| HtmlDecoding.DecodeOne | packages/bridge/src/sources/owncast/chat/html.ts:56-64 | Decoding one entity undoes its escape in any text, whatever entities the text spells out. |
| HtmlDecoding.ForeignEntitiesRead | packages/bridge/src/sources/owncast/chat/html.ts:9-17 | The two entities that the bridge never writes, `&apos;` and `&nbsp;`, are read as an apostrophe and a space. |
| HtmlDecoding.NumericReferenceRead | packages/bridge/src/sources/owncast/chat/html.ts:29 | A numeric reference is read as the character of its code point, and the parser throws exactly when there is none. |
| HtmlDecoding.LiteralEntityIsLost | packages/bridge/src/sources/owncast/chat/html.ts:26 | A message that spells out `&lt;` comes back as `<`. |
| HtmlRoundTrip.EscapeIsCharacterwise | packages/bridge/src/sources/owncast/chat/html.ts:56-64 | The six successive rewrites of escapeText are one characterwise substitution. |
| OwncastHtml.OwncastHtmlToText | packages/bridge/src/sources/owncast/chat/html.ts:20-31 | The method with its loop over the entities meets the specification of the parser. |
| ContentPipeline.PipelineConserves | packages/shared/src/utils/content-processor/pipeline.ts:13-147 | The tokens of processed content, read back as the text each stands for, are the content itself, for any processors whose matches are ordered and non-empty and whose plain results return the match. |
| ContentPipeline.SpecialsSurvive | packages/shared/src/utils/content-processor/pipeline.ts:42-47 | A specialised token, once made, reaches the output unchanged and in order. |
| ContentPipeline.StagesClear | packages/shared/src/utils/content-processor/pipeline.ts:36-137 | If a processor leaves no text but clean text, in a sense that pieces inherit, then so does every pipeline that has it. |
| ContentPipeline.ReplacementsAreExact | packages/shared/src/utils/content-processor/pipeline.ts:98-114 | The replacements reported are those of the specialised tokens, each as often as it occurs: kind, original text and display text. |
| ContentPipeline.ProcessContent | packages/shared/src/utils/content-processor/pipeline.ts:28-146 | The nested loops compute the specified tokens and replacements, and the text is the concatenation of token values. |
| ContentPipeline.FindAll | packages/shared/src/utils/content-processor/pipeline.ts:49-69 | All matches of a text, in order and without overlap. |
| ContentPipeline.Split | packages/shared/src/utils/content-processor/pipeline.ts:77-132 | One text split at its matches. |
| MessageRoundTrip.EmojiProcessorIsSound | packages/shared/src/utils/content-processor/processors/emoji-processor.ts:12-94 | The emoji processor meets every demand of the pipeline on a processor, and its tokens those of the HTML round trip. |
| MessageRoundTrip.FindsLeftmost | packages/shared/src/utils/content-processor/processors/emoji-processor.ts:12 | The scanner for shortcodes overlooks none. |
| MessageRoundTrip.ListenerReadsTheDisplayText | packages/bridge/src/core/chat/content-render.ts:47-57 | For any processors whose matches are non-empty and in bounds and whose emoji tokens do not end in an equals sign, and whether the pipeline handles the message, throws or leaves nothing to show: reading back the HTML the bridge sends gives the text it shows, references decoded and ends trimmed. |
| MessageRoundTrip.ShowsTheMessage | packages/bridge/src/core/chat/content-render.ts:47-57 | With processors that show matches as they are, the text shown is the trimmed message, or the raw message where it goes out as plain text. |
| MessageRoundTrip.VerbatimMessageSurvives | packages/bridge/src/sources/owncast/adapter.ts:151-154 | With such processors that also show their matches as they are, a message crosses over and back unchanged, on every path, if and only if it is trimmed and spells out no reference. |
| MessageDisplay.RenderedExactly | packages/bridge/src/core/chat/content-render.ts:47-57 | For the seven processors: a message goes out as its tokens unless the pipeline threw or the message is all space, and then, and only then, as it came. |
| MessageDisplay.MentionsReadAt | packages/shared/src/utils/content-processor/processors/npub-processor.ts:25-45 | In the message as written, with a mention in the place of its identifier, the name found for it reads @name whatever stood in front. |
| MessageDisplay.PlainFormAround | packages/bridge/src/core/chat/content-render.ts:27-35 | In the plain form a link is spelled out with its target and every other token as it is shown, each in its place. |
| MessageDisplay.EveryTokenIsNamed | packages/shared/src/utils/content-processor/pipeline.ts:99-121 | No token goes without a kind, and only plain text without metadata. |
| BridgeProcessors.ProcessorsAreSound | packages/shared/src/utils/content-processor/processors/npub-processor.ts:16-79 | All seven processors a live chat message goes through meet every demand of pipeline and printer; those of links and emoji show their matches as they are. |
| BridgeProcessors.FindsLeftmostRef | packages/shared/src/utils/content-processor/processors/nevent-processor.ts:9 | The scanner for identifiers, with or without their scheme, overlooks none. |
| BridgeProcessors.OneAtInFront | packages/shared/src/utils/content-processor/processors/npub-processor.ts:25-45 | Read on from the text in front of it, a name has exactly one @. |
| BridgeProcessors.Abridged | packages/shared/src/utils/nostr-key-utils.ts:126-143 | An identifier shown in short keeps its first 8 and last 4 characters, in 15 at most. |
| BridgeProcessors.ReaderSeesTheMessage | packages/bridge/src/sources/owncast/chat/html.ts:93-120 | Of any message the bridge sends the reader sees its tokens, every link leading to the URL or the njump.me page of what it stands for and every emoji to the image its event defines, or the bare text. |
| PipelineCompleteness.NothingIsOverlooked | packages/shared/src/utils/content-processor/pipeline.ts:36-137 | Whatever the message, no text shown as plain text holds a link, an emoji its event defines, or an identifier of a note, an event or an address; nor one of a person, unless some such identifier is no key. |
| PipelineCompleteness.NothingElseIsTaken | packages/shared/src/utils/content-processor/processors/npub-processor.ts:16-79 | Every token shown as something else stands for a piece of the message that is a link, a defined emoji or an identifier, and a mention shows what the lookup of its own identifier said. |
| PipelineCompleteness.IdentifiersAre | packages/shared/src/utils/content-processor/processors/note-processor.ts:9 | Which texts are identifiers, exactly: with 58 characters a key, with 58 or 59 a note, with any number the other three. |
| PipelineCompleteness.UrlIsWhole | packages/shared/src/utils/content-processor/processors/url-processor.ts:7 | A link goes on for as long as there are characters of a link. |
| PipelineCompleteness.RefIsWhole | packages/shared/src/utils/content-processor/processors/note-processor.ts:9 | An identifier is taken with its scheme and as far as it goes. |
| BridgeProcessors.BridgedMessageIsRead | packages/bridge/src/core/chat/content-render.ts:47-57 | For the seven processors, with any profiles and any emoji, and without hypotheses: reading back what is sent gives the text shown, and the tokens stand for the whole message. |
| BridgeProcessors.PlainMessageSurvives | packages/shared/src/utils/content-processor/processors/url-processor.ts:7-29 | A message that mentions no Nostr identifier crosses over and back unchanged, whatever its links and emoji, if and only if it is trimmed and spells out no reference. |
| AuthedPublish.SettlesOnceAndHonestly | packages/bridge/src/core/nostr/authed-publish.ts:30-37 | The promise settles at most once and resolves only after an accepting OK for the event; its deadline is armed exactly while it is open, so once that timer has had its time the promise has settled. |
| AuthedPublish.WireIsTheHandshake | packages/bridge/src/core/nostr/authed-publish.ts:39-64 | AUTH at most once, for a challenge that arrived and after a demand for it; EVENT at most twice, the second time after AUTH. |
| AuthedPublish.ResendNeedsAckOrPatience | packages/bridge/src/core/nostr/authed-publish.ts:59-63 | The second EVENT waits for the OK to the AUTH or for 1500 ms. |
| AuthedPublish.PublishExactly | packages/bridge/src/core/nostr/authed-publish.ts:21-106 | Every flag and timer of the closure from the inputs alone: which AUTH goes out, when the event goes out again, how many intervals wait and until when, and when the fallback fires. |
| AuthedPublish.OutcomeExactly | packages/bridge/src/core/nostr/authed-publish.ts:30-106 | The promise settles with an outcome if and only if the first verdict among the inputs is that outcome, and stays open exactly while there is none. |
| AuthedPublish.HandshakeCompletes | packages/bridge/src/core/nostr/authed-publish.ts:74-101 | The run with the challenge first resolves, with exactly EVENT, AUTH, EVENT on the wire. |
| AuthedPublish.LateChallengeCompletes | packages/bridge/src/core/nostr/authed-publish.ts:88-99 | So does the run in which the challenge comes after the rejection. |
| AuthedPublish.Publisher.OnOk | packages/bridge/src/core/nostr/authed-publish.ts:78-102 | Every branch of the OK handler. |
| AuthedPublish.Publisher.SignAndSendAuth | packages/bridge/src/core/nostr/authed-publish.ts:45-64 | sendAuth with its guard and the fallback timer. |
| LoaderKeys.KeyRoundTrip | packages/shared/src/nostr/services/client.service.ts:390-399 | parseKey undoes toKey for every kind, every d and any pubkey without colons, an empty d being no d. |
| LoaderKeys.KeysAreCoordinates | packages/shared/src/nostr/services/client.service.ts:390-392 | Two requests share a key exactly when they ask for the same thing. |
| ReplaceableLoader.ResolutionMeaning | packages/shared/src/nostr/services/client.service.ts:507-520 | A request resolves to the event with greatest created_at, first arrived on ties, at its own coordinate; without a d and with nothing there, to the newest of author and kind; and to nothing exactly when no event answers it. |
| ReplaceableLoader.NewestWins | packages/shared/src/nostr/services/client.service.ts:483-505 | The filing keeps the newest, first arrived, event for each key. |
| ReplaceableLoader.BuildNewestMaps | packages/shared/src/nostr/services/client.service.ts:483-505 | The loop computes both filings for every key. |
| ReplaceableLoader.ResolveRequest | packages/shared/src/nostr/services/client.service.ts:507-520 | Lookup in the two maps, meeting the specification. |
| ReplaceableLoader.IsComplete | packages/shared/src/nostr/services/client.service.ts:377-388 | The completion predicate: every key resolves. |
| ReplaceableLoader.CompletionIsMonotone | packages/shared/src/nostr/services/client.service.ts:369-388 | Once complete, complete with any further events. |
| ReplaceableLoader.TwoTiersAreOne | packages/shared/src/nostr/services/client.service.ts:569-594 | Asking in two tiers leaves a key unresolved exactly when neither tier holds an answer; what the primary resolved stays resolved. |
| ReplaceableLoader.LoadedExactly | packages/shared/src/nostr/services/client.service.ts:550-604 | The fallback is asked for exactly the keys the primary holds nothing for, and a load comes back empty-handed for a key exactly when neither tier holds anything. |
| ReplaceableLoader.MissesAreAnswered | packages/shared/src/nostr/services/client.service.ts:528-535 | A key left empty-handed is counted as missed exactly when a relay of either tier answered. |
| ReplaceableLoader.FallbackOnAnswers | packages/shared/src/nostr/services/client.service.ts:583-594 | Over both tiers an answer of the primary stays or gives way to a strictly newer one, except that a request without a d answered only loosely takes the newest event the fallback holds at its own coordinate, if any. |
| ReplaceableLoader.FallbackAgesExactly | packages/shared/src/nostr/services/client.service.ts:507-520 | An answer gets older if and only if the request names no d, the primary held nothing at its coordinate, and the winner of the fallback there is older than the loose answer. |
| ReplaceableLoader.LooseAnswerGivesWay | packages/shared/src/nostr/services/client.service.ts:507-520 | Two events for which the combined answer is older than the answer of the primary. |
| ReplaceableLoader.HonestFallbackNeverAges | packages/shared/src/nostr/services/client.service.ts:569-582 | If the fallback returns only what its filters ask for, and no event has d tags that differ, no answer gets older. |
| ReplaceableLoader.ReplaceableEventLoader.LoadViaBigRelays | packages/shared/src/nostr/services/client.service.ts:550-604 | The fallback is asked for exactly the unresolved keys; every key resolves over the events of both tiers; a miss is recorded only when unresolved, not kind 0 and some relay answered; a throw leaves ledger and results untouched. |
| ReplaceableLoader.ReplaceableEventLoader.RecordOutcome | packages/shared/src/nostr/services/client.service.ts:528-535 | The ledger after one outcome. |
| ReplaceableLoader.BuildBatchFilters | packages/shared/src/nostr/services/client.service.ts:452-477 | One filter per kind with the authors and ds of that kind, and the limit. |
| ReplaceableLoader.FiltersReachAnswers | packages/shared/src/nostr/services/client.service.ts:461-475 | The filters reach every event that could answer some request if and only if no addressable kind is asked for both with and without a d. |
| BatchLoading.OneFetchPerKey | packages/shared/src/nostr/services/client.service.ts:209-265 | Keys over all unsettled batches are pairwise distinct, and no batch exceeds the batch size. |
| BatchLoading.OnlyFullBatchesWait | packages/shared/src/nostr/services/client.service.ts:227-257 | Of two batches still waiting for their timers one is full: loads coalesce. |
| BatchLoading.BatchesFreeze | packages/shared/src/nostr/services/client.service.ts:233-250 | The keys of a batch are fixed once it is dispatched and its answers once finished, over any continuation of the run. |
| BatchLoading.AnswersAreOnesOwn | packages/shared/src/nostr/services/client.service.ts:209-263 | Every load gets what the batch function returned at the position of its own key, undefined if it threw, or a value primed or returned for that key. |
| BatchLoading.NoLoadIsForgotten | packages/shared/src/nostr/services/client.service.ts:209-263 | A waiting load always has its timer armed, its fetch out or its flight about to end; loads of one key wait for one fetch. |
| BatchLoading.RestMeansAnswered | packages/shared/src/nostr/services/client.service.ts:209-263 | A loader with no timer armed, no fetch out and no flight that can end has answered every load. |
| BatchLoading.LoadingIsShort | packages/shared/src/nostr/services/client.service.ts:209-263 | And it comes to that: timers, fetches and flight ends are at most three for each load, in any run. |
| BatchLoading.LoaderExactly | packages/shared/src/nostr/services/client.service.ts:209-265 | From the inputs alone: the cache holds for each key the last value primed or brought back and not dropped since; a load is answered from it exactly when there is one; and the keys asked of the batch function are, in order, those of the loads that found their key neither cached nor on its way. |
| BatchLoading.BatchLoader.LoadKey | packages/shared/src/nostr/services/client.service.ts:209-225 | load: cache, flight in progress, or joining a batch. |
| BatchLoading.BatchLoader.Resolve | packages/shared/src/nostr/services/client.service.ts:239-248 | Caches every defined value of a finished batch, in order. |
| BatchLoading.BatchLoader.Dispatch | packages/shared/src/nostr/services/client.service.ts:233-239 | The timer closes the batch to further joins. |
| BatchLoading.BatchLoader.EndFlight | packages/shared/src/nostr/services/client.service.ts:220-222 | The end of a flight answers every load waiting for the key. |
| QueryStats.CountsAreExact | packages/shared/src/nostr/services/client.service.ts:946-1074 | Returned events have distinct ids, and eoseCount is exactly the number of relays whose EOSE came before anything else settled them. |
| QueryStats.ReqsAreClosedOnce | packages/shared/src/nostr/services/client.service.ts:983-1002 | Every opened REQ is recorded closed exactly once by the time the query returns, and never more than once before. |
| QueryStats.CompletionIsExact | packages/shared/src/nostr/services/client.service.ts:962-973 | Early completion closes every REQ, implies that the predicate held of the events then received, and is not missed while a REQ was opened. |
| QueryStats.EarlyAnswersAreComplete | packages/shared/src/nostr/services/client.service.ts:377-388 | For the predicate of the loader, an early answer resolves every requested key. |
| QueryStats.EoseCause | packages/shared/src/nostr/services/client.service.ts:1022-1029 | A relay counts as settled by EOSE exactly when its EOSE came while its REQ was open. |
| QueryStats.QueryExactly | packages/shared/src/nostr/services/client.service.ts:946-1074 | From the inputs alone: the events are those that arrived, once each and in order; the query completes early exactly when the goal was achieved at a subscription or a new event; the relays asked are those that connected before; each is settled by the first thing that ended its REQ. |
| QueryStats.Query.Settle | packages/shared/src/nostr/services/client.service.ts:993-1002 | finish: the first call settles and records, later ones do nothing. |
| QueryStats.Query.CheckCompletion | packages/shared/src/nostr/services/client.service.ts:968-973 | maybeCompleteEarly with its loop over the closers. |
| QueryStats.Query.OnEvent | packages/shared/src/nostr/services/client.service.ts:1008-1021 | Deduplication by id, then the completion check. |
| QueryStats.Query.OnConnected | packages/shared/src/nostr/services/client.service.ts:978-1066 | A relay connecting after completion is skipped, otherwise subscribed and checked. |
| ProfileBackoff.CooldownLadder | packages/shared/src/nostr/utils/profile-fetch-backoff.ts:22-50 | 30 s doubling to 4 minutes over four attempts, then 5 minutes for good. |
| ProfileBackoff.RetryWindow | packages/shared/src/nostr/utils/profile-fetch-backoff.ts:44-56 | The next retry lies at least the cooldown and less than the cooldown and one bucket ahead, on a 30 s bucket. |
| ProfileCoordinator.DispatchDiscipline | packages/shared/src/nostr/services/profile-request-coordinator.ts:411-461 | inFlight is exactly the disjoint union of the outstanding dispatches; dispatches lie at least 5 s apart and none precedes the boot window. |
| ProfileCoordinator.DispatchedExactly | packages/shared/src/nostr/services/profile-request-coordinator.ts:441-458 | A flush sends exactly the keys that are wanted, uncached, not in flight and out of cooldown, and sends whenever there is one and the pacing allows. |
| ProfileCoordinator.DemandIsCounted | packages/shared/src/nostr/services/profile-request-coordinator.ts:319-339 | wanted counts the unreleased retains naming a key, over any run; releasing twice changes nothing. |
| ProfileCoordinator.HoldsAreRetains | packages/shared/src/nostr/services/profile-request-coordinator.ts:319-339 | Every retain has its hold, and a hold is released exactly by its release. |
| ProfileCoordinator.CachedExactly | packages/shared/src/nostr/services/profile-request-coordinator.ts:84-105 | A profile is cached if and only if an answer to a dispatch that asked for it, an early event or another surface brought it and it has not been dropped since. |
| ProfileCoordinator.OutstandingExactly | packages/shared/src/nostr/services/profile-request-coordinator.ts:463-503 | A dispatch is outstanding exactly until its answer comes or it throws. |
| ProfileCoordinator.TriesExactly | packages/shared/src/nostr/services/profile-request-coordinator.ts:84-121 | The ledger counts exactly the misses and throws of a key since it was last found. |
| ProfileCoordinator.MissesAreAskedAgain | packages/shared/src/nostr/services/profile-request-coordinator.ts:411-461 | A wanted key of which nothing was ever heard is unserved whenever it is not in flight, and from its retry time on every flush that may go out asks for it. |
| ProfileCoordinator.PacingIsPrompt | packages/shared/src/nostr/services/profile-request-coordinator.ts:418-436 | The pacing lets a dispatch go out exactly when the boot window is over and 5 s have passed since the last one, and its timer is never set later than that. |
| ProfileCoordinator.MissingProfilesAreRare | packages/shared/src/nostr/services/profile-request-coordinator.ts:411-461 | A key never found appears in at most 5 + T/300000 dispatches of any window of T ms, the boot fast lane included. |
| ProfileCoordinator.MissWaits | packages/shared/src/nostr/services/profile-request-coordinator.ts:511-528 | After a miss the retry lies within one bucket of its cooldown, or, for an early attempt of the first minute, within one bucket of 5 s where that is sooner. |
| ProfileCoordinator.MissesHeal | packages/shared/src/nostr/services/profile-request-coordinator.ts:84-121 | At every moment each recorded miss may be retried within 330 s. |
| ProfileCoordinator.CoolingKeysAreWoken | packages/shared/src/nostr/services/profile-request-coordinator.ts:582-591 | While a wanted key is unserved and cooling, work is under way or the retry timer is set no later than its retry; only a key already lapsed, or evicted from the cache, can be left without a wake-up. |
| ProfileCoordinator.RestWakesExactly | packages/shared/src/nostr/services/profile-request-coordinator.ts:582-591 | At every moment of any run at which the coordinator rests with some key wanted: it has rested since a last scheduling, and its timer is still the one set then, which is none if and only if no wanted key was cooling at that time and otherwise the first of them to cool down. |
| ProfileCoordinator.RetryIsScheduled | packages/shared/src/nostr/services/profile-request-coordinator.ts:123-142 | Scheduling arms a timer if and only if some wanted key is still cooling, no later than each such retry. |
| ProfileCoordinator.LapsedKeyIsAbandoned | packages/shared/src/nostr/services/profile-request-coordinator.ts:136 | A reachable state with a wanted, never found key, nothing under way and no timer: its cooldown lapsed while the fetch of another was out. |
| ProfileCoordinator.PartitionPubkeys | packages/shared/src/nostr/services/profile-request-coordinator.ts:38-76 | The loop splits keys into cache hits and keys to fetch. |
| ProfileCoordinator.EarliestRetryAt | packages/shared/src/nostr/services/profile-request-coordinator.ts:128-142 | The loop finds the earliest retry still ahead, or none. |
| ProfileCoordinator.RecordMisses | packages/shared/src/nostr/services/profile-request-coordinator.ts:111-121 | The ledger after recording a miss for every key. |
| ProfileCoordinator.ApplyBootFastRetryLane | packages/shared/src/nostr/services/profile-request-coordinator.ts:511-528 | The ledger after pulling early attempts forward during the first minute. |
| ProfileCoordinator.CountIn | packages/shared/src/nostr/services/profile-request-coordinator.ts:319-323 | Retaining adds one to the count of each key. |
| ProfileCoordinator.CountOut | packages/shared/src/nostr/services/profile-request-coordinator.ts:331-336 | Releasing takes one off, and a count of zero out of the map. |
| ProfileCoordinator.ProfileRequestCoordinator.ResumeFlush | packages/shared/src/nostr/services/profile-request-coordinator.ts:411-461 | flush from its first await on: pacing, partition, dispatch or scheduling. |
| ProfileCoordinator.ProfileRequestCoordinator.OnDispatchReturned | packages/shared/src/nostr/services/profile-request-coordinator.ts:463-492 | The state after a dispatch returns. |
| ProfileCoordinator.ProfileRequestCoordinator.OnDispatchThrew | packages/shared/src/nostr/services/profile-request-coordinator.ts:493-503 | The state after a dispatch throws. |
| ProfileCoordinator.ProfileRequestCoordinator.ReleaseHold | packages/shared/src/nostr/services/profile-request-coordinator.ts:327-338 | Release, idempotent, followed by scheduling. |
| ProfileCoordinator.ProfileRequestCoordinator.Schedule | packages/shared/src/nostr/services/profile-request-coordinator.ts:582-591 | One timer, at the earliest cooldown of a wanted key. |
| Discovery.RowsAgreeWithTheRelay | packages/bridge/src/core/discovery/discovery-bridge.service.ts:176-280 | Over any run of cycles and operator actions, for any database order: the last published status of an instance is the status of its row, its time the last publish time and, while live, the participants its viewer count. |
| Discovery.RowsAreTold | packages/bridge/src/core/discovery/discovery-bridge.service.ts:176-477 | Every column of a row is what the history of its instance tells, and every entry has its reason: a directory pass publishes ended if and only if its last probe said so, a manual one only live after a live probe, a profile only when its hash is not the one stored, and nothing without something to say. |
| Discovery.ListedAreBridged | packages/bridge/src/core/discovery/discovery-bridge.service.ts:112-280 | A cycle probes every enabled instance that is listed, leaves its row ended if and only if the probe said so, with the answer recorded, and leaves profile and live event published as they now are. |
| Discovery.UnlistedAreReconciled | packages/bridge/src/core/discovery/discovery-bridge.service.ts:327-477 | An enabled row that is not listed is probed as a manual one if it is one and left published as live when found so; failing that it is probed by reconciliation if it counts as live; otherwise it stays as it is. |
| Discovery.CycleGrows | packages/bridge/src/core/instance-store.ts:68-106 | After a cycle there are the rows of before and those of the listed, no other: old ones keep their flags, new ones take the configured posture. |
| Discovery.EndingsAreEarned | packages/bridge/src/core/discovery/discovery-bridge.service.ts:413-476 | Reconciliation publishes only endings, each after at least maxConsecutiveFailures misses of its own probes with no live answer in between, over any number of cycles. |
| Discovery.OnlyAbsenceCounts | packages/bridge/src/core/discovery/discovery-bridge.service.ts:132-137 | A directory outage changes nothing; a cycle that lists an instance never raises its count; an opted-out row stays exactly as it was. |
| Discovery.CyclesRespectOptOut | packages/bridge/src/core/discovery/discovery-bridge.service.ts:197-205 | A cycle changes no flag and probes and publishes only enabled rows. |
| Discovery.ErrorsCarryMissesOver | packages/bridge/src/core/discovery/discovery-bridge.service.ts:273-279 | Being listed again restarts the count only if the probe answers: after a probe error the next miss may end the stream alone, exactly when the earlier misses plus one reach the limit. |
| Discovery.EndsAfterOneMiss | packages/bridge/src/core/discovery/discovery-bridge.service.ts:273-279 | For any limit, a run from an empty store in which an instance one miss short of it is listed again, published live after a probe error, and ended by the very next miss. |
| Discovery.HeartbeatIsKept | packages/bridge/src/core/discovery/discovery-bridge.service.ts:236-240 | Every turn that finds an enabled instance listed, or a manual one live, leaves it published within the republish interval, and a turn that publishes nothing leaves status, count and publish time alone. |
| Discovery.CycleKeeps | packages/bridge/src/core/discovery/discovery-bridge.service.ts:111-170 | One completed cycle keeps every row in agreement with its history, whatever the order of the listings. |
| Discovery.LiveTurnKeeps | packages/bridge/src/core/discovery/discovery-bridge.service.ts:207-279 | The turn of a listed row keeps agreement, count and earned endings. |
| Discovery.ManualTurnKeeps | packages/bridge/src/core/discovery/discovery-bridge.service.ts:332-409 | So does the turn of a manual row. |
| Discovery.ReconcileTurnKeeps | packages/bridge/src/core/discovery/discovery-bridge.service.ts:422-476 | So does the turn of a row that disappeared. |
| Discovery.DiscoveryBridgeService.RunCycle | packages/bridge/src/core/discovery/discovery-bridge.service.ts:112-146 | The three passes over the store are one cycle of the specification. |
| Discovery.DiscoveryBridgeService.TakeLiveTurn | packages/bridge/src/core/discovery/discovery-bridge.service.ts:176-280 | processLive, step by step, is the turn of a listed row. |
| Discovery.DiscoveryBridgeService.ManualRows | packages/bridge/src/core/discovery/discovery-bridge.service.ts:327-411 | processManualRows, over its snapshot of rows, is the manual pass. |
| Discovery.DiscoveryBridgeService.ReconcileDisappeared | packages/bridge/src/core/discovery/discovery-bridge.service.ts:418-477 | reconcileDisappeared, over its snapshot of rows, is the reconcile pass. |
| Discovery.DiscoveryBridgeService.MaybePublishProfile | packages/bridge/src/core/discovery/discovery-bridge.service.ts:282-319 | The hash gate of the profile. |
| Discovery.InstanceStore.UpsertSeen | packages/bridge/src/core/instance-store.ts:68-106 | A new row takes the default posture, an existing one keeps everything the engine decides on. |
| Discovery.InstanceStore.List | packages/bridge/src/core/instance-store.ts:116-144 | Every row that qualifies, once. |
| Discovery.InstanceStore.Update | packages/bridge/src/core/instance-store.ts:147-156 | Sets the given columns of one row. |

## Left out

- EchoFreedom.TrafficExactly: of the tags of a bridged event only its address and the client tag are modelled, not the relay hint, the NIP-70 and expiration tags and the emoji, because no filter of the bridge reads them.
- Websocket, HTTP, Postgres and file mechanics: their outcomes are inputs, or a keyed row map for the store.
- Cryptography and encodings, JSON and URL parsing: signatures, hashes and keys are opaque values, fresh where the source draws them at random.
- Regular expressions: each concrete pattern is a scanner over characters; ASCII case only, as the patterns have it. For the HTML parser the scanners are proved to match as ECMAScript does, for the processors that they find the leftmost match and the whole of it. Which characters beyond ASCII count as letters, digits or marks in a URL is a parameter.
- Code points of lone surrogates, which are no Dafny characters: the parser model maps them to U+FFFD.
- The site, the operations scripts, logging, metrics, configuration and the small caches: they would add only simple members.
- Listener uniqueness when refreshRooms and pollDemand overlap, which the code does not ensure.
- extractOwncastEmojis, the profile resolution by name, message-level processors, and the priority sort of processors, of which only the resulting order is used.
- refreshProfiles, waitUntilSettled and the persistent negative cache of the profile coordinator, except that its entries are loaded at start.
- Synchronous listeners of the profile coordinator calling back into it: their calls are inputs of their own.
- The eviction order of the loader's LRU cache (any entry may be dropped at any time), loading by id, and the miss cooldown at the front of the loader's load.
- Rate-limit cooldowns of relays; a relay whose subscribe throws or calls back before it returns, so the check for completion right after subscribing is not modelled; and a close() that throws.
- The cap of 50 senders per instance. Of a sender's sockets it is taken, as the websocket library has it, that closing one during its handshake makes the handshake fail, and that its error event comes before its close event.
- Operator actions in the middle of a discovery cycle, several sources in one store, cycles aborted by a failing database, snapshots, and row columns that no decision reads.
- Whether a relay accepted a publish, which the engine only counts.
- The room of RoomDelivery and the connection of SenderPool are not joined into one machine; and the composed system of EchoFreedom delivers whatever passes the filters, without fingerprints and order of delivery.
- Among events of equal age the first that arrived is kept, as the code does, where NIP-01 ("Kinds") prefers the lowest id. The `limit` of a filter is computed, but a relay that truncates by it is not modelled.
- The start times and the stream metadata carried by live events.
