# Chatbridge: a verified model

Chatbridge joins a web widget, Instagram and Telegram to one operator panel. Replies,
provider echoes, read receipts, id adoptions, cache invalidations and channel edits arrive
in any order from independent tasks; SQL guards and unique indexes decide the outcome. This
project models that logic and proves what holds in every interleaving. Verify it with
`dafny verify dfyconfig.toml`.

## Layout

| files | subject |
|---|---|
| `ExternalId`, `Model`, `Wrappers` | message ids, entities |
| `Tables` | each SQL statement on `messages` and `chats` as a function, and the invariants the statements keep |
| `Store` | the same statements as methods over indexed tables, each proved equal to its function |
| `Pipeline`, `Handlers` | `persist_and_publish`, the socket handlers and the delivery task over the store |
| `Protocol`, `ProtocolSteps`, `ProtocolInvariants`, `ProtocolRuns`, `ProtocolEvents` | the delivery protocol, one statement, provider answer or publication at a time, in any interleaving |
| `PipelineSteps` | the pipeline's calls are steps of that protocol; how far a receipt reaches |
| `ChatRace` | concurrent `find_or_create_chat` |
| `Cache`, `CacheCoherence` | the dual-keyed caches, and any number of replicas with invalidation queues, one cache lock at a time |
| `Registry`, `Listener` | the connection registry with its two locks, and event routing |
| `ChannelTable`, `ChannelAdmin`, `ChannelLifecycle`, `ChannelAlone`, `ChannelArming`, `ChannelRollback`, `ChannelRefresh` | channel requests alone and interleaved, against the provider's webhooks, each other's rollbacks and token refreshes |
| `Subscribe`, `Refresh`, `InstagramWebhook` | field subscription, token refresh, webhook parsing |

The central result is `ProtocolRuns.AdoptedReplyIsReadOnce`. An operator's reply is stored
under a local id, sent, marked delivered and renamed to the provider's id; the provider's
echo of it and the customer's receipt may come before, between or after those steps. However
they interleave, once the rename has committed there is one row under the provider's id: the
operator's own, author kept, Read. It rests on one fact about every reachable state: a Read
echo row implies a settled reply (`ProtocolInvariants.CopyOf`), so the rename can delete the
echo without losing the read.

## Assumptions

- Row times do not decrease in commit order.
- A provider does not reuse a message id, and echoes a message only after it accepted it,
  naming the customer it was sent to.
- Chats are never closed: no code writes `chats.status` (docs/tech_debt.md:31-40).
- Each SQL statement is atomic; `adopt_external_message_id` is one transaction, and an abort
  changes nothing. SQL NULL equals nothing.
- Generated UUIDs are new and never nil.
- Redis delivers every publication to every replica's queue in order.
- A connection is deregistered once, after its `register` returned, as the connection guard of
  `src/handler/mod.rs` has it.
- A provider call that reports success took effect; one that reports failure may have.

## Where the code falls short of its description

- The upstream README (lines 131-136) and the comment at src/pipeline.rs:228-231 describe the
  chat-wide fallback of a receipt as the answer to an unknown anchor. The code runs it whenever
  the first query changed nothing, so a receipt for a known anchor that finds nothing unread up
  to it reads newer messages too. `PipelineSteps.ReceiptStopsAtAnchor` says exactly when a
  receipt stops at its anchor; `PipelineSteps.RepeatedReceiptReadsNewer` is a concrete case
  where it does not. The watermark holds of the database queries alone (`Tables.Watermark`).
- A receipt whose customer's client could not be resolved has no fallback, so one that overtakes
  both the adoption and the echo reads nothing, now or later (`PipelineSteps.ReceiptWithoutCustomer`).
  `ProtocolRuns.AdoptedReplyIsReadOnce` speaks of receipts that are completed.
- A resent operator `mid` is refused only until adoption renames the row it named
  (`ProtocolEvents.ResendStoredExactlyWhenAdopted`, both directions over any run).
- A cache lookup that misses reads the database and then takes two locks in turn, and an
  eviction takes two as well, with anything in between. `CacheCoherence.StepKeepsExactly` and
  `CacheCoherence.CoherentExactlyWhenHarmless` say exactly which steps, and so which runs, keep
  the caches coherent; `CacheCoherence.TornLookupStaysStale` is a run from empty tables that
  does not. Lookups and evictions that are not interrupted always do
  (`CacheCoherence.WholeRunsAreHarmless`).
- Hard-deleting a row on the rollback of a create publishes no invalidation. That is harmless
  exactly when no replica has cached the row, invalidations under way aside
  (`CacheCoherence.HardDeleteKeepsExactly`); `CacheCoherence.RollbackStaysStale` is a run in
  which a lookup saw it.
- src/handler/channels.rs:358-361 promises that only a channel that ends the request alive is
  armed. That holds of a request running alone (`ChannelAdmin.Admin.Update`). Among concurrent
  requests, a delete anywhere before the provider call breaks it: between an update's read and
  its commit, or between the statement of an update, create, login or re-registration and the
  call. `ChannelArming.ArmsTheLiving` says exactly when a call reaches a live channel;
  `ChannelArming.CreateArmsItsDeletedChannel` is a run of two requests in which it does not.
- A customer's message whose client or chat lookup fails is stored without a chat
  (src/pipeline.rs:75-131), and the listener drops its event (src/listener.rs:54-57), so no
  operator hears of it. `Listener.EventsReachTheirAddressees` and
  `Listener.ConnectedGetTheirEvents` say exactly who hears of which stored row;
  `Listener.LostMessageReachesNoOperator` is a run that stores one nobody hears of.
- A failed login deletes the row it inserted even when a second login has meanwhile updated that
  row and succeeded (src/handler/oauth.rs:212-228). `ChannelRollback.OwnExactlyUntilRollback` and
  `ChannelRollback.RollbackTakesSecondLogin` say exactly when; `ChannelRollback.SecondLoginLosesItsRow`
  is a run.
- A token refresh writes back a config built from the one it listed, over whatever an update or a
  login has stored since (src/refresh.rs:60-79). `ChannelRefresh.RefreshOverwrites` says exactly
  which credential gives way unseen; `ChannelRefresh.ReplacementIsLost` is a run.
- `operator_ids` is not always a subset of the connected ids: it can be read between the two
  writes of a deregister. `Registry.ListedOperatorsAreConnected` says exactly when an id is
  listed without a connection; `Registry.OperatorListedWithoutConnection` reaches that state.

## Model

| member | source | states |
|---|---|---|
| `ExternalId.DecimalIsInjective` | src/external_id.rs:18-26 | two integers, negative ones included, never print alike |
| `ExternalId.UuidTextIsInjective` | src/external_id.rs:30-32 | two UUIDs never print alike in the hyphenated form |
| `ExternalId.FormatIsInjective` | src/external_id.rs:12-36 | the five id constructors are injective over all arguments and pairwise disjoint, so an id text names one constructor and its arguments |
| `ExternalId.DecimalReadsBack` | src/external_id.rs:18-26 | the decimal text of a number reads back as that number and has no leading zero |
| `ExternalId.UuidReadsBack` | src/external_id.rs:30-32 | a UUID is five groups of lower-case hexadecimal digits that read back as its 128 bits |
| `ExternalId.StoredTexts` | src/external_id.rs:12-36 | the stored texts: prefix, separator and both UUIDs of every widget id, and an example of each other constructor |
| `Tables.InsertKeeps` | src/db.rs:443-463 | an insert under a taken id changes nothing; any insert keeps ids unique, rows in their chat's channel by its client, and reads closed downward in time |
| `Tables.MarkReadKeeps` | src/db.rs:576-634 | each read query keeps all table invariants, downward closure of reads included |
| `Tables.MarkIfNewKeeps` | src/db.rs:695-715 | delivery marks keep all table invariants |
| `Tables.EditKeeps` | src/db.rs:465-481 | edits keep all table invariants |
| `Tables.AdoptKeeps` | src/db.rs:641-688 | adoption keeps ids unique on every channel, and all other table invariants, whatever row held the new id |
| `Tables.Watermark` | src/db.rs:718-736 | a read anchored on a known row turns Read exactly the other side's unread rows of that chat up to the anchor, leaves none unsettled, and changes nothing when repeated |
| `Store.ScanAndMark` | src/db.rs:583-592 | one scan turns exactly the hit rows Read and returns each hit id once |
| `Store.AdoptDropsAtMostOne` | src/db.rs:659-684 | adoption deletes at most one other row, the one the unique index names, and renames its own |
| `Store.EditTouchesAtMostOne` | src/db.rs:465-481 | an edit gives the one row the unique index names its text and time, and no other row changes |
| `Store.MessageStore.InsertMessage` | src/db.rs:443-463 | inserts iff no row of the channel has the id and both foreign keys exist, and adds that row alone; the index stays exact |
| `Store.MessageStore.EditMessage` | src/db.rs:465-481 | the row under the id, if any, gets the text and the time and is returned, and no other changes; the index stays exact |
| `Store.MessageStore.MarkMessagesRead` | src/db.rs:576-600 | a row turns Read and is returned, once, iff it is an unread row of the other side in the chat of the row under the external id and no newer than it; no other row changes |
| `Store.MessageStore.MarkChatRead` | src/db.rs:609-634 | the same for every unread row of the other side in the customer's chat on the channel |
| `Store.MessageStore.MarkMessagesReadById` | src/db.rs:718-736 | the same up to a row named by its own id |
| `Store.MessageStore.MarkMessage` | src/db.rs:695-715 | a New row takes the given status, every other row and a row that was not New stay as they were, and the result says which |
| `Store.MessageStore.AdoptExternalMessageId` | src/db.rs:641-688 | a missing row changes nothing; otherwise the row takes the new id, any other row under that id on its channel goes, the rest stays, and the index follows |
| `Store.MessageStore.FindOrCreateChat` | src/db.rs:339-377 | the one chat of a customer on a channel, created when there is none and only then, refused when the customer or channel is unknown |
| `Pipeline.Bridge.ResolveConversation` | src/pipeline.rs:75-131 | the chat a message belongs to and the author its row may claim, for every combination of lookup failures: a named chat as it is, the customer of a provider only when the clients table confirms it |
| `Pipeline.Bridge.PersistAndPublish` | src/pipeline.rs:67-283 | for each kind of event the exact new tables; a stored row has the message's channel, id, side and text, New, with the drawn time; each published event carries the id, external id, channel, chat, author (or nil) and side of the row the call leaves, and its text, status and creation time, or the new text and `now` of an edit; one Read event for each row that turned Read |
| `Pipeline.Bridge.PersistReceipt` | src/pipeline.rs:211-273 | prefix query, then the chat-wide fallback iff it changed nothing and a customer is named; one Read event per changed row |
| `Handlers.ProcessOperatorMessage` | src/handler/operator_ws.rs:119-286 | a failing or empty chat lookup changes nothing; a send stores this reply or nothing, an edit rewrites the one row under the local id; the row and its event are given field by field; delivery is spawned iff this very call inserted the row, the channel is known to have a provider and the text is not empty |
| `Handlers.ProcessWidgetMessage` | src/handler/widget_ws.rs:240-265 | a send or edit under an id built from the socket's own client; the stored row and its event are given field by field, in the client's own chat when both lookups work, without a chat or an author otherwise |
| `Handlers.ReadByRow` | src/handler/widget_ws.rs:202-238 | a socket receipt turns Read exactly the unread rows of the other side up to the named row, and announces each; a failed query changes nothing |
| `Handlers.ProcessOperatorRead` | src/handler/operator_ws.rs:135-217 | a failing chat lookup, an unknown chat, an unparsable `mid` and a failed query change nothing; otherwise the provider is told iff something was unread and the named chat is on Instagram |
| `Handlers.FinishDelivery` | src/handler/operator_ws.rs:466-502 | the row's final status and id for each answer and each failing statement: Delivered or Failed only from New, the provider's id even when the mark failed; only a row that held that id goes; the Delivered notice iff the mark changed the row, the Failed notice always |
| `Handlers.HandlersKeepWellFormed` | src/pipeline.rs:74-165 | whatever message a handler passes and whichever calls fail, the tables stay well formed |
| `Handlers.MessageKeepsWellFormed` | src/pipeline.rs:67-283 | so do edits and receipts, fallback included |
| `Handlers.PersistAll` | src/handler/webhook.rs:68-71 | the webhook's loop persists its messages in order, each against the tables the one before left |
| `Handlers.MessagesGoOneByOne` | src/handler/webhook.rs:68-71 | the specification of that loop can be split anywhere, and on one message is that message |
| `Handlers.DrawsExist` | src/db.rs:443-463 | the new ids and times that loop is given exist for any number of messages and any tables with that many ids free |
| `Handlers.FirstMessageGetsItsChat` | src/pipeline.rs:75-131 | a message whose customer is on record lands in that customer's one chat, created if need be, by that customer |
| `PipelineSteps.ReplyIsAStep` | src/handler/operator_ws.rs:219-232 | storing a panel reply through the pipeline is one protocol step, and a delivery task comes to be iff that call inserted the row |
| `PipelineSteps.DeliverySpawnsExactly` | src/handler/operator_ws.rs:231-277 | a reply's task is ready for its delivery iff the handler, its provider lookup working, spawns one |
| `PipelineSteps.DeliveryIsSteps` | src/handler/operator_ws.rs:466-502 | what the delivery task does with the provider's answer is the protocol's mark, adopt or abort, and fail steps, each enabled in its turn, whichever statements fail |
| `PipelineSteps.InboundIsSteps` | src/pipeline.rs:74-165 | in every reachable state, storing a customer's message is at most one chat creation and then one StoreInbound that is enabled there, whichever lookups fail |
| `PipelineSteps.EchoIsSteps` | src/pipeline.rs:74-165 | storing an echo is at most one chat creation and then one Echo that is enabled there |
| `PipelineSteps.ReceiptIsSteps` | src/pipeline.rs:211-241 | a receipt run without interruption is the protocol's prefix step followed by its sweep step exactly when one is owed, which it then no longer is |
| `PipelineSteps.ReceiptWithoutCustomer` | src/pipeline.rs:227-240 | a receipt without a resolved customer changes a row iff its first query does, and nothing when no row holds the id it names |
| `PipelineSteps.ReceiptStopsAtAnchor` | src/pipeline.rs:227-240 | a receipt for a known anchor leaves newer rows alone iff something was unread up to the anchor or nothing is unread after it |
| `PipelineSteps.RepeatedReceiptReadsNewer` | src/pipeline.rs:227-240 | a concrete repeated receipt that reads a message newer than its anchor |
| `PipelineSteps.OneChatIsWellFormed` | src/pipeline.rs:227-240 | the tables and the receipt of that example meet all invariants and the handlers' terms |
| `ProtocolInvariants.ProviderRowsRead` | src/db.rs:587-592 | a read query that turns an echo Read settles the reply it copies in the same statement |
| `ProtocolInvariants.StepKeepsInv` | src/handler/operator_ws.rs:458-570 | all 24 kinds of step keep the tables, the tasks, the provider ids, the Read events and the send log consistent with each other |
| `ProtocolRuns.AdoptedReplyIsReadOnce` | src/handler/operator_ws.rs:466-491 | after adoption and a completed receipt, in any interleaving, exactly one row holds the provider id: the operator's own row, author kept, Read |
| `ProtocolRuns.MarkedReplyIsDelivered` | src/db.rs:695-702 | in any run, once a delivery mark took place the reply is Delivered or Read, at once and for ever, and the mark changes no other row |
| `ProtocolRuns.FailedReplyWasNew` | src/db.rs:708-715 | in any run, after the mark of a failed delivery the reply is Failed, for good, iff it was New before, and the mark changes no other row |
| `ProtocolRuns.DeliveryGoesThrough` | src/handler/operator_ws.rs:231-502 | a stored reply can go all the way: accepted, it is sent once, marked and renamed to the provider's id; refused, lost or never sent, it ends Failed if it was New |
| `ProtocolRuns.ProviderIdsAreGiven` | src/provider/instagram.rs:133-143 | what the account owner or a customer writes at the provider can from then on be stored, as an echo or an inbound message |
| `ProtocolRuns.EchoMatchesReply` | src/db.rs:659-684 | an echo row and its reply: same channel, reply no newer, same chat iff the echo resolved one, and a Read echo means a settled reply |
| `ProtocolRuns.AdoptionLosesNothing` | src/db.rs:659-684 | adoption finds its row, deletes only authorless rows, and a Read one only when the reply is Read |
| `ProtocolRuns.RepliesAreKept` | src/db.rs:648-671 | a row with an operator author is never deleted and only climbs |
| `ProtocolRuns.StatusOnlyClimbs` | src/db.rs:695-715 | over any run a status moves New to Delivered, Failed or Read, or Delivered to Read; Read and Failed are final; a deleted id never returns |
| `ProtocolRuns.ReadsAreClosed` | src/db.rs:576-634 | in every reachable state, whatever is older than a Read row in its chat and side is Read or Failed |
| `ProtocolRuns.IdsOnlyGrow` | src/db.rs:659-684 | the provider and widget ids held on a channel never go away, adoption deletes included |
| `ProtocolRuns.ReprocessingIsHarmless` | src/db.rs:443-463 | an inbound message or echo processed again at any later point changes no row |
| `ProtocolEvents.HeardExactlyTheTurned` | src/pipeline.rs:251-271 | the Read events published, owed or lost are exactly those of rows that turned Read |
| `ProtocolEvents.PublishedOrLost` | src/pipeline.rs:251-271 | in any run a Read event was heard iff its publication took place, lost iff it failed, and never both |
| `ProtocolEvents.TurnsReadOnce` | src/db.rs:590-592 | no row turns Read twice in a run |
| `ProtocolEvents.ReadEventsMatchReads` | src/handler/operator_ws.rs:174-203 | with no publish failure and nothing owed, the published Read events match the rows that turned Read one to one |
| `ProtocolEvents.SendsAreStoredAndUnrepeated` | src/handler/operator_ws.rs:231-277 | every provider send is for a row stored before it, and no row is sent twice |
| `ProtocolEvents.StoredRowFacts` | src/pipeline.rs:75-131 | every stored row: its chat's channel, its chat's client as author when client-side, no chat without a verified author, unique id |
| `ProtocolEvents.WidgetEditsStayOwn` | src/handler/widget_ws.rs:240-250 | an edit under a widget client's id changes at most one row, and only one that client may have written |
| `ProtocolEvents.ResendStoredExactlyWhenAdopted` | src/handler/operator_ws.rs:219-276 | over any run, a `mid` sent again on a channel is stored, and may be delivered again, iff every reply stored under it there before has been adopted |
| `ProtocolEvents.AdoptionFreesTheMid` | src/db.rs:680-684 | in the state an adoption leaves, the same `mid` is enabled and stored |
| `ChatRace.CallersAgree` | src/db.rs:339-377 | concurrent callers for one customer and channel all return the same chat |
| `ChatRace.ReselectNeverMisses` | src/db.rs:365-374 | at most one chat per pair ever exists, and the re-select after a conflict returns the winner's chat |
| `ChatRace.CallAlone` | src/db.rs:339-377 | a call nothing disturbs returns the pair's chat, or creates it iff there is none |
| `Cache.DualKeyedCache.GetById` | src/cache.rs:52-66 | hit, or read-through: exactly the live row answered goes into the store and under its key into the index; misses are not cached |
| `Cache.DualKeyedCache.GetByKey` | src/cache.rs:70-88 | answers through the index only when the primary store agrees, else with the live row under the key, which is then stored and indexed as read |
| `Cache.LookupIsRemembered` | src/cache.rs:52-66 | a lookup by id leaves a cache whose next lookup gives the same row, whatever the table has become; all other entries stay |
| `Cache.KeyLookupIsRemembered` | src/cache.rs:70-88 | so does a lookup by key, for that key and for the row's id |
| `Cache.DualKeyedCache.Invalidate` | src/cache.rs:91-97 | the id is gone from the store and from every key of the index, all else stays |
| `Cache.ListenForInvalidations` | src/cache.rs:307-363 | each payload evicts from its own cache, in order; others are skipped |
| `Cache.ListenerEvicts` | src/cache.rs:338-346 | after a list of payloads with no lookup in between, each cache is what it was less exactly the entities named for it |
| `CacheCoherence.HalvesMakeWholes` | src/cache.rs:38-49 | the locked halves in sequence are the insert and the eviction of the caches |
| `CacheCoherence.WholeLookupsAreLookups` | src/cache.rs:52-88 | a lookup by id or by key, run lock by lock without interruption, ends in exactly the maps the lookup methods leave |
| `CacheCoherence.WholeEvictionsAreEvictions` | src/cache.rs:91-97 | so does an eviction, and a delivery takes the head of its queue |
| `CacheCoherence.StepKeepsExactly` | src/cache.rs:52-97 | one lock at a time, a step keeps the caches coherent iff the row a lookup stores is still live, the store still holds what it indexes, nothing stale was stored behind a delivered eviction, and a rolled-back row is cached nowhere, or an invalidation is under way |
| `CacheCoherence.CoherentExactlyWhenHarmless` | src/cache.rs:52-97 | a run of any replicas is coherent throughout iff each of its steps is harmless in that sense |
| `CacheCoherence.WholeRunsAreHarmless` | src/cache.rs:52-97 | runs whose lookups and evictions are not interrupted are harmless, harmful rollbacks aside |
| `CacheCoherence.AnswersById` | src/cache.rs:52-66 | after harmless steps an answer by id is the live row, or none, unless an invalidation for it is queued here or owed |
| `CacheCoherence.AnswersByKey` | src/cache.rs:70-88 | the same by provider key, for the channel that answers |
| `CacheCoherence.HardDeleteKeepsExactly` | src/handler/channels.rs:261-271 | an unannounced hard delete keeps coherence iff each replica that cached the row has an invalidation under way |
| `CacheCoherence.RollbackStaysStale` | src/handler/channels.rs:261-271 | a run, with every operation whole, in which a rolled-back create stays cached with nothing under way |
| `CacheCoherence.TornLookupStaysStale` | src/cache.rs:61-65 | a run from empty tables in which a lookup torn between read and insert leaves the replaced row cached with nothing under way |
| `Registry.ClientRegistry.Register` | src/registry.rs:31-44 | next id, one more empty channel for the entity, its id listed iff an operator, every other channel as it was |
| `Registry.ClientRegistry.Deregister` | src/registry.rs:47-56 | removes the connection; the entity and its listing go iff it was the last |
| `Registry.ClientRegistry.SendTo` | src/registry.rs:59-66 | each channel of the entity with fewer than 64 payloads waiting has the payload behind them; a full one and every other entity's stay as they were |
| `Registry.ClientRegistry.ConnectionCount` | src/registry.rs:75-82 | the sum over entities is the number of open connections |
| `Registry.ListedOperatorsAreConnected` | src/registry.rs:31-56 | an operator is listed without a connection iff a deregister that closed its last one is about to clear it |
| `Registry.OperatorListedWithoutConnection` | src/registry.rs:47-56 | a run that reaches such a state |
| `Registry.ReturnedOperatorsAreListed` | src/registry.rs:31-56 | an operator whose register returned is listed while that connection is open, whatever else runs |
| `Registry.ConnectionIdsNeverRepeat` | src/registry.rs:32 | drawn ids strictly grow, and no id is stored under two entities |
| `Registry.CountBalances` | src/registry.rs:75-82 | open connections are registrations less removals |
| `Registry.ReceivedInOrder` | src/registry.rs:59-66 | in any run a connection's socket is handed the payloads its channel accepted, once each and in the order sent; while it is open the rest wait in that order |
| `Registry.AloneIsRegister` | src/registry.rs:31-44 | the locked steps run alone are the register method |
| `Registry.AloneIsDeregister` | src/registry.rs:47-56 | the locked steps run alone are the deregister method |
| `Listener.Route` | src/listener.rs:53-93 | one pass of the loop sends to exactly the connections routing names |
| `Listener.ChatlessReachNobody` | src/listener.rs:54-57 | an event about any row without a chat reaches nobody |
| `Listener.EventsReachTheirAddressees` | src/listener.rs:53-93 | an event about any stored row, routed at any later point of any run: without a chat nobody gets it; in a chat, messages and edits reach every operator but the author, and the customer unless the customer wrote them; reads reach only the customer for a client-side row and only operators otherwise |
| `Listener.ConnectedGetTheirEvents` | src/listener.rs:53-93 | in any run of the protocol beside any run of the registry, a connection whose operator `register` returned has the event behind what waited, unless 64 payloads did, iff the row has a chat and it is news to that operator; the customer's connections iff it is news to the customer |
| `Listener.LostMessageReachesNoOperator` | src/pipeline.rs:75-131 | a run that stores a customer's message without a chat, whose event no operator gets |
| `ChannelTable.PlanKeepsIdentity` | src/handler/channels.rs:380-500 | an update arms the provider iff it replaces a credential or restores, and the channel ends alive; key and secret of a non-widget channel survive any request |
| `ChannelTable.PlanIsRefused` | src/handler/channels.rs:384-500 | a request is refused iff its credential is of another provider, malformed or another account's, or the secret it needs does not parse; an accepted credential is the one stored |
| `ChannelAdmin.Admin.CreateTelegram` | src/handler/channels.rs:214-276 | a taken identity is refused before any provider call; a failed create with a working rollback leaves the table as it was |
| `ChannelAdmin.Admin.Update` | src/handler/channels.rs:371-576 | for every outcome the whole new state, field by field: name, key, config and deletion of the row, the webhook dropped, the webhook set and the calls made; alone, it never calls the provider for a channel that stays deleted |
| `ChannelAdmin.Admin.Delete` | src/handler/channels.rs:582-621 | deleted and invalidated whatever the provider answers, and nothing for an unknown id |
| `ChannelAdmin.Admin.Connect` | src/handler/oauth.rs:164-247 | a pin mismatch changes nothing; an existing row keeps id, name and key, even when subscribing fails; an inserted one goes away again |
| `ChannelAlone.CreateAlone` | src/handler/channels.rs:214-276 | the steps of a create, run alone, are what the handler promises, rollback included |
| `ChannelAlone.UpdateAlone` | src/handler/channels.rs:371-576 | so are those of an update, from the drop of a replaced webhook to the new one |
| `ChannelAlone.DeleteAlone` | src/handler/channels.rs:582-621 | so are those of a delete |
| `ChannelAlone.LoginAlone` | src/handler/oauth.rs:164-247 | so are those of a login, new or existing account, subscribed or not |
| `ChannelAlone.RefreshAlone` | src/refresh.rs:59-80 | a refresh changes the config of the row it listed and nothing else |
| `ChannelLifecycle.OneRowPerIdentity` | migrations/20260822000001_collapse_channel_tables.sql:50-53 | under any interleaving at most one row holds a provider identity, deleted rows included |
| `ChannelLifecycle.CreateArmsItsOwnRow` | src/handler/channels.rs:237-259 | every setWebhook of a create names the row this create inserted, which at that moment holds the bot's identity and the secret sent |
| `ChannelLifecycle.RollbackFreesItsOwnIdentity` | src/handler/oauth.rs:212-228 | a rollback deletes the very row its own request inserted, and its success frees the identity |
| `ChannelLifecycle.OnlyRollbacksDelete` | src/db.rs:256-266 | no other step of any request removes a row |
| `ChannelLifecycle.SecretNeverChanges` | src/handler/channels.rs:450-483 | a Telegram channel's secret and bot stay those of its creation through renames, rotations, deletes, restores and re-registrations |
| `ChannelLifecycle.WebhooksCarryTheStoredSecret` | src/handler/connection.rs:218-234 | each webhook ever set carries the secret the ingest check reads from its channel's row, at any time that row exists |
| `ChannelLifecycle.ProviderHoldsTheStoredSecret` | src/provider/telegram.rs:28-56 | the webhook a bot has now names a channel of that bot with that channel's secret |
| `ChannelArming.StepLives` | src/db.rs:185-266 | a row is alive after a step iff the step inserts or restores it, or it was alive and the step does not delete it |
| `ChannelArming.AliveAlong` | src/db.rs:185-266 | over any stretch of a run, a row ends alive iff it began alive or came back, and no delete was left standing |
| `ChannelArming.CallsArePrepared` | src/handler/channels.rs:237-543 | every arming call follows a statement of its own request |
| `ChannelArming.ArmsTheLiving` | src/handler/channels.rs:502-543 | in any run, the channel is alive at an arming call of a create, update, re-registration or login iff the request's statement left it alive (an update's: restoring, or alive at the commit) or something revived it since, and no delete since was left standing |
| `ChannelArming.OvertakenUpdateArmsDeletedChannel` | src/handler/channels.rs:376-543 | every non-restoring update whose plan sets a webhook, overtaken by a delete between read and commit, arms a deleted channel |
| `ChannelArming.DeleteBeforeCallIsUndone` | src/handler/connection.rs:216-234 | so does every create, update, restoring or not, and re-registration when a whole delete falls right before its setWebhook |
| `ChannelArming.CreateArmsItsDeletedChannel` | src/handler/channels.rs:237-275 | a run from an empty table in which a create and a delete end with the deleted channel hooked |
| `ChannelRollback.OwnExactlyUntilRollback` | src/handler/oauth.rs:191-228 | in any run, the row a rollback deletes is its own request's from that insert up to the rollback and at no other moment, whoever writes it in between |
| `ChannelRollback.RollbackTakesSecondLogin` | src/handler/oauth.rs:212-228 | a rollback deletes the row a second login updated iff that update falls between the first login's insert and its rollback |
| `ChannelRollback.SecondLoginLosesItsRow` | src/handler/oauth.rs:212-228 | a run in which the second login succeeds and ends without its row |
| `ChannelRefresh.RefreshOverwrites` | src/refresh.rs:59-80 | in any run, the credential a refresh's write-back overwrites is the one it listed iff it was stored before the listing, and one it never saw iff an update, login or other refresh stored it in between; nothing else of the row changes |
| `ChannelRefresh.ReplacementIsLost` | src/refresh.rs:59-80 | a run in which a token an update has just stored gives way to the renewed old one |
| `Subscribe.SubscribeAll` | src/oauth/mod.rs:182-215 | succeeds iff some field is acceptable; keeps the acceptable ones in order; leaves the account with exactly those, or those added to what it had |
| `Subscribe.SubscribeChannel` | src/oauth/mod.rs:173-216 | other providers have nothing to subscribe; a config without a token fails before any call; otherwise the account ends with the acceptable ones among Instagram's four fields |
| `Subscribe.KeptIs` | src/oauth/mod.rs:195-202 | each acceptable field is kept as often as listed, and no other |
| `Subscribe.KeptInOrder` | src/oauth/mod.rs:195-202 | kept fields are in the listed order |
| `Subscribe.SubscribingAgain` | src/oauth/mod.rs:214-215 | repeating a successful subscription changes nothing |
| `Refresh.RefreshDueTokens` | src/refresh.rs:83-121 | each live Instagram channel whose token expires within three days, or nobody knows when, is tried once; the ones that answer get the new token and expiry and are invalidated, once each, and no other row changes; refreshed plus failed is their number |
| `Refresh.DueAre` | src/refresh.rs:35-52 | due are exactly the listed channels whose config parses with an unknown expiry or one within three days, each once |
| `Refresh.EnoughAttempts` | src/refresh.rs:14-28 | a token whose refreshes keep failing gets at least threshold / (interval + delay) attempts before it expires |
| `Refresh.SeventyTwoAttempts` | src/refresh.rs:16-19 | 72 when passes are an hour apart |
| `InstagramWebhook.Parser.Parse` | src/provider/instagram.rs:74-215 | the loops compute the fold over entries and events; a foreign object or a failed channel lookup yields no messages |
| `InstagramWebhook.EventIsRoutedByItsParties` | src/provider/instagram.rs:133-203 | one event from its own fields: the account is the recipient, of an echo the sender, the customer the other party; it fails the webhook iff the account's lookup fails, and gives one message, spelled out, iff the account has a live channel whose config parses |
| `InstagramWebhook.EntriesDeliverInOrder` | src/provider/instagram.rs:90-117 | an entry's `messaging` events come first, then its `changes`; a change counts iff it has one of the four bodies |
| `InstagramWebhook.ParsingGoesEventByEvent` | src/provider/instagram.rs:90-205 | the fold takes entry after entry and event after event, leaving none out |
| `InstagramWebhook.ShapesAgree` | src/provider/instagram.rs:92-117 | the two delivery shapes of the same events are read alike iff every event can be interpreted |
| `InstagramWebhook.MessageCarriesItsBody` | src/provider/instagram.rs:240-255 | a routed event becomes one message with its own body's id and text, in the order message, edit, receipt, reaction |
| `InstagramWebhook.EchoMirrorsInbound` | src/provider/instagram.rs:133-203 | a message and its echo between the same parties reach the same channel, conversation and id, and differ only in side and author |
| `InstagramWebhook.EventSpeaksForItsCustomer` | src/provider/instagram.rs:138-203 | a routed event's message joins the conversation of the event's own customer, as the client on record names it |
| `InstagramWebhook.MessagesSpeakForTheirCustomers` | src/provider/instagram.rs:90-205 | over a whole webhook the messages are those of the routed events, in order, each in its own customer's conversation |
| `InstagramWebhook.ConversationsFollowCustomers` | src/provider/instagram.rs:138-203 | two messages of a webhook, inbound or echo, share a conversation iff their events share the customer, and a customer known before keeps it |
| `InstagramWebhook.ParsedIsSensible` | src/provider/instagram.rs:168-203 | every parsed message names a live channel and a client on record; a customer keeps its client and no two share one |
| `InstagramWebhook.FreshDrawsExist` | src/provider/instagram.rs:290-298 | the new client ids a webhook may need exist for any number of events and any clients with that many ids free |
| `InstagramWebhook.WebhookKeepsWellFormed` | src/handler/webhook.rs:65-72 | a whole webhook, parsed and persisted with whatever calls failing on the way, keeps the tables well formed, and every conversation names a client on record |

## Left out

- HTTP, WebSocket, Redis and Postgres plumbing, timeouts, ping and pong, graceful shutdown: replaced by atomic steps, queues and success-or-failure choices.
- Signature, JWT and OAuth state checks, and token exchange: a verified identity is an input.
- JSON, config fields other than token, secret and expiry, raw payloads, display names, logging, error wording and the login page.
- Credential and widget id validators, endpoint strings, connection status, and read-only listings.
- `OperatorCache` and `ChatCache`: one key each, and their data does not change after insert.
- Profile refresh and client renames; `upsert_client` is modelled as first-sight insertion only.
- Telegram webhook parsing: one message per update, with none of Instagram's shapes or echoes.
- `create_instagram` and widget creation as methods: they are steps of `ChannelLifecycle`, with the same order as the Telegram create.
- Instagram subscriptions as provider state in `ChannelLifecycle`, where they are calls only: `Subscribe` models their effect on one account.
- Wrap-around of the 64-bit connection counter and of Telegram's 64-bit ids.
- Delivery past the registry: a full channel drops the payload, and nothing is claimed beyond that.
- A failing chat lookup in the listener, which drops the event: routing is against tables that can be read.
- The registry changing while one event is being routed: `Listener.Route` runs against one registry.
- `chats.status`: nothing writes it, so every chat is active.
- The ack text and error frames of the sockets.
- Pagination and ordering of chat history.
