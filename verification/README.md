# Jianm, verified

A Dafny model of the Jianm MQTT 3.1.1 broker: topic matching and the topic tree,
routing, sessions and takeover, both halves of QoS 2, offline queues, retained
messages, wills, retransmission, the packet codec, stream framing and the send
queue. `dafny verify dfyconfig.toml` checks everything.

## How it is built

The broker exists twice. `Broker.dfy` describes it as a state machine: a state
that holds all tables, and one function per event (a packet, the end of a
channel, a retransmission check, a new channel, the passing of time). `Engine.dfy`
and `ClientContext.dfy` are the program's own form: objects whose tables and
flags the handlers change in place, with the loops of the router, the session
manager and the handlers. `Engine.Engine.Process` proves that for one event the
objects do exactly what the state machine says, and `Engine.Engine.Run` drives a
new engine through any list of events and proves that its views are the states
of the run: whatever holds of every run of the state machine holds of the program.

Over every run of the state machine the following are proved.

- `Invariant.dfy` and `Guarantees.dfy`: the registries, the session objects and
  the topic tree agree with each other.
- `Outcomes.dfy` and `Intake.dfy`: what a client can rely on after its own
  packets, and what is retained.
- `Lifecycle.dfy`, `Persistence.dfy` and `GeneratedIds.dfy`: which events end a
  channel and which will that publishes, how long a session is kept, and that
  generated client ids differ.
- `Delivery.dfy` (with `Routing.dfy`): end to end, what every event means for
  every client, the acting one included.
- `Inbound.dfy`: exactly-once routing of QoS 2 publications.
- `StoreForward.dfy` and `Resume.dfy`: what an offline session misses, and what
  it is sent when its client returns.
- `OutboundRuns.dfy` and `Resending.dfy` (with `Outbound.dfy`): what a connection
  is sent, from its CONNACK on: once each and in order what was routed to it,
  which messages are sent again, when and how, and what acknowledgements do.

Four parts stand on their own: `WillSafety.dfy` (the interleaving of network
thread, worker and closing), `SendQueue.dfy`, the codec with the framing of the
stream (`RemainingLength.dfy`, `Utf8.dfy`, `Codec.dfy`, `FilterCodec.dfy`,
`Framing.dfy`, joined in `Wire.dfy`), and the stores (`TopicTree.dfy`,
`RetainStore.dfy`, `Outbox.dfy`), whose classes the engine uses.

## Assumptions

- A handler runs to its end before anything else happens, on a channel that is
  still registered. A registered channel is open: the channel calls its close
  callback before it marks itself as closing. `WillSafety.dfy` is the exception
  and looks at the finer interleaving.
- An open channel accepts every packet it is given to send.
- On one channel no CONNECT follows a DISCONNECT (section 3.14.4 of MQTT 3.1.1).
  `WillSafety.dfy` does without this.
- A packet of a channel that has ended may still be handled. Whether the channel
  object then still exists is decided outside the model, so `WillSafety.dfy` has
  both cases: if it does, a CONNECT binds the client id to the ended connection
  (`WillSafety.LateConnectBinds`); if not, it does not.
- The handler's branches for an empty client id are modelled as they stand, but
  no such CONNECT reaches it: the parser rejects an id that is not UTF-8
  (src/protocol/Codec.cpp:353-355), and the empty string is not
  (`Utf8.EmptyIsInvalid`). So no id is ever generated from a packet.
- No plugin is installed, and authentication and authorisation admit everyone.
- A session object is identified by an address that is not used again, and a weak
  reference to it can be followed exactly as long as the session table holds it.
- `dropSession` keeps its argument alive while it erases the table entry.
- The retransmission check visits the channels one by one, each one's messages in
  any order, and a message's time stamp is not earlier than the check that sent it.
- Time does not run backwards. Packet identifiers are 16 bits wide and wrap.

## Where the code and its documentation differ

The model follows the code.

- A connection limit of 0 is documented as unlimited, but lets nobody in
  (`Guarantees.FewerThanTheMaximum`).
- A comment says that an empty retained message is not forwarded. That holds
  exactly below QoS 2; at QoS 2 the PUBREL forwards it
  (`Outcomes.EmptyRetainedIsForwardedIff`, `Outcomes.EmptyRetainedIsForwarded`).
- A comment says that a DISCONNECT noted on arrival keeps the will from being
  sent. It does not if the CONNECT of the same channel has not been handled yet
  (`WillSafety.EarlyDisconnectIsForgotten`, `WillSafety.WillPublishedIff`).
- A comment says that a closing transport drains its queue and then closes the
  socket. It does so only if at most one buffer is pending
  (`SendQueue.AfterClose`, `SendQueue.ClosesIff`, `SendQueue.TwoPendingStayOpen`).
- An acknowledgement must announce a length of 2 (section 3.4.1 of MQTT 3.1.1).
  The parser accepts any announced length that fits the buffer
  (`Codec.ParseAckIff`, `Codec.AcceptedAckConformsIff`).
- A receive buffer configured larger than the largest packet makes the decoder
  refuse the first packet of every channel (`Wire.Receive`).
- A topic that itself contains wildcards can make the topic tree report a
  subscription more than once; will topics are not checked for this. For which
  topics that can happen is stated exactly (`TopicTree.ReportedOnceIff`). Routing
  is not affected, because it folds the reports per client.

## Model

| member | source | states |
|---|---|---|
| Topic.SplitTopic | include/jianm/model/Topic.hpp:43-57 | the loop yields exactly the pieces between the slashes, also for the empty topic and for leading and trailing slashes |
| Topic.JoinSplit | include/jianm/model/Topic.hpp:43-57 | joining the levels with slashes gives the topic back |
| Topic.SplitInjective | include/jianm/model/Topic.hpp:43-57 | different topics have different level lists |
| Topic.IsTopicNameInvalid | include/jianm/model/Topic.hpp:69-76 | rejects exactly the empty name and names with a wildcard character anywhere |
| Topic.IsTopicFilterInvalid | include/jianm/model/Topic.hpp:93-107 | accepts exactly the filters in which every wildcard character fills a level and the multi-level one comes last, stated on characters as section 4.7.1 of MQTT 3.1.1 does |
| Topic.LevelsVersusCharacters | include/jianm/model/Topic.hpp:93-107 | the rule on levels and the rule on characters accept the same filters |
| Topic.MatchingIsPositional | include/jianm/model/Topic.hpp:119-134 | the recursive matcher agrees with a description by positions: equal or single-level wildcard level by level, and either equal length or a multi-level wildcard, which also covers its parent |
| TopicTree.TopicTree.constructor | src/broker/TopicTree.cpp:44-47 | an empty tree stands for no subscriptions |
| TopicTree.TopicTree.Add | src/broker/TopicTree.cpp:44-64 | for every valid filter the map the tree stands for, from session and filter to QoS, changes at that entry only; nodes are created as needed |
| TopicTree.TopicTree.Upsert | src/broker/TopicTree.cpp:55-63 | a known subscription gets the new QoS in place, a new one is appended |
| TopicTree.TopicTree.Remove | src/broker/TopicTree.cpp:66-81 | exactly that entry leaves the map; a filter that is not in the tree changes nothing |
| TopicTree.TopicTree.Collect | src/broker/TopicTree.cpp:90-114 | from any node, reports exactly the matching entries below it, each as often as there are walks to it |
| TopicTree.TopicTree.FindMatches | src/broker/TopicTree.cpp:83-114 | for every topic the reported entries are exactly those that the flat matcher accepts; how often each is reported; no repetition for topics without wildcards |
| TopicTree.WalksMeanMatch | src/broker/TopicTree.cpp:90-114 | some walk of the tree ends at a filter exactly when the flat matcher accepts it |
| TopicTree.ReportedOnceIff | src/broker/TopicTree.cpp:90-114 | no valid filter is reported more than once exactly for topics without a single-level wildcard level and without a final multi-level one |
| TopicTree.NamesAreUnrepeated | src/broker/TopicTree.cpp:83-114 | every topic a PUBLISH may carry is of that kind |
| Outbox.Outbox.Enqueue | src/broker/Outbox.cpp:40-52 | QoS 0 is not queued; otherwise the message goes to the back of its session's queue, and the oldest is dropped from a queue of 1000 |
| Outbox.Outbox.Drain | src/broker/Outbox.hpp:80-91 | yields the whole queue of the session, oldest first, and forgets it |
| Outbox.Outbox.Clear | src/broker/Outbox.cpp:54-57 | forgets the queue of one session only |
| Outbox.PushKeepsNewest | src/broker/Outbox.cpp:40-52 | queueing one by one leaves the newest 1000 of everything queued, in order |
| RetainStore.RetainStore.Store | src/broker/RetainStore.cpp:40-50 | replaces the message of the topic in place or appends it, and the index stays exact |
| RetainStore.RetainStore.Clear | src/broker/RetainStore.cpp:52-63 | removes the message of the topic, moves the later ones up, and the index stays exact |
| RetainStore.RetainStore.Reindexed | src/broker/RetainStore.cpp:58-62 | the renumbering loop makes the index exact again from the erased position on |
| RetainStore.AllAfter | src/broker/RetainStore.cpp:40-68 | after any run of operations: for every topic the last message stored and not cleared since, nothing else, in the order in which the topics were last newly inserted |
| ClientContext.ClientContext.constructor | src/broker/SessionManager.cpp:61-67 | a new context: no client, not connected, nothing in flight |
| ClientContext.ClientContext.NextPacketId | src/broker/ClientContext.hpp:106-110 | the 16-bit counter goes up by one and skips 0 |
| Outbound.NextPidIsNextAllocation | src/broker/ClientContext.hpp:101-110 | the n-th identifier handed out has a closed form and is never 0, across the wrap |
| Outbound.PidsCollideIff | src/broker/ClientContext.hpp:101-110 | two allocations share an identifier exactly when a multiple of 65535 lies between them |
| ClientContext.ClientContext.Deliver | src/broker/Router.cpp:89-118 | the PUBLISH carries the lower QoS; above QoS 0 it gets the next identifier and is in flight under it |
| Outbound.DeliverDisplacesIff | src/broker/Router.cpp:107-117 | delivering displaces an in-flight message exactly when its identifier comes round again, a multiple of 65535 allocations later |
| Outbound.RefusedQos0ChangesNothing | src/broker/Router.cpp:112-117 | identifier 0 is never in flight, so a refused send at QoS 0 erases nothing |
| ClientContext.ClientContext.Resend | src/broker/Router.cpp:120-162 | PUBREL again once it was sent, else the PUBLISH with DUP, a new time stamp and one more retry; nothing if it is no longer in flight or the client is not connected |
| ClientContext.ClientContext.CheckRetransmission | src/broker/SessionManager.cpp:164-183 | the loop over the in-flight messages is the retransmission check of the state machine, including giving up at the retry limit |
| Outbound.InvRetry | src/broker/SessionManager.cpp:164-183 | a check in any visiting order keeps the history of the connection in order |
| ClientContext.ClientContext.Release | src/broker/Handlers.cpp:391-400 | PUBREC releases a QoS 2 message with a PUBREL and ignores everything else |
| ClientContext.ClientContext.Finish | src/broker/Handlers.cpp:387-414 | PUBACK and PUBCOMP end the in-flight message, a PUBACK also the inbound identifier |
| ClientContext.ClientContext.Note | src/broker/Handlers.cpp:232-247 | tells a repeated PUBLISH from a new one and remembers the new one under its identifier |
| ClientContext.ClientContext.Replay | src/broker/Handlers.cpp:190-200 | everything queued is delivered with DUP, in order |
| ClientContext.ClientContext.DeliverRetained | src/broker/Handlers.cpp:326-331 | the matching retained messages are delivered in stored order, marked as retained |
| ClientContext.ClientContext.Attach | src/broker/Handlers.cpp:163-169 | an accepted CONNECT sets session, id and will and clears the flags of the previous life |
| ClientContext.ClientContext.Disconnect | src/broker/Handlers.cpp:436-450 | the client is no longer connected and left cleanly |
| RoutePlan.TallyIsPlan | src/broker/Router.cpp:53-68 | the fold over the reported matches, in any order and with repetitions, gives exactly the clients whose live session wants the topic, each with the highest of its capped QoS levels |
| RoutePlan.PlanStep | src/broker/Router.cpp:70-86 | serving one more client of the plan is one more step of routing, whatever clients were served before |
| RoutePlan.PlanDone | src/broker/Router.cpp:51-87 | serving all of them is routing |
| Routing.FateOfRoute | src/broker/Router.cpp:51-87 | for every client with a session its own subscription list decides: delivered once now, queued once, or dropped, and dropped only if it is offline with a clean session or at QoS 0; others are untouched |
| Routing.MatchOrNot | src/broker/Router.cpp:53-68 | a subscription list either has no match or a best QoS, never both, and the best QoS is unique |
| Engine.Engine.BestQos | src/broker/Router.cpp:53-68 | the loop over the matches computes that table |
| Engine.Engine.RouteTo | src/broker/Router.cpp:70-86 | one client: delivered if connected, else queued if persistent and above QoS 0, else nothing |
| Engine.Engine.Route | src/broker/Router.cpp:51-87 | the two loops together have the effect of routing in one step |
| Engine.Engine.DropSession | src/broker/SessionManager.cpp:185-195 | all entries of the session leave the tree, the session and its queue are gone, nothing else changes |
| Invariant.DropRemovesEntries | src/broker/SessionManager.cpp:185-195 | removing the listed filters removes every entry of the session and no other |
| Engine.Engine.RemoveChannel | src/broker/SessionManager.cpp:86-108 | the channel and its binding are gone; a clean session that was not taken over ends with them |
| Engine.Engine.GetSession | src/broker/SessionManager.cpp:125-149 | a clean start drops the stored session and makes a new one; otherwise the stored one is used if there is one; either way it then stands under the client id |
| Engine.Engine.AddChannel | src/broker/SessionManager.cpp:61-67 | a new channel gets an empty context |
| Engine.Engine.TakeOver | src/broker/Handlers.cpp:153-161 | the previous connection of the client id is closed, marked as taken over |
| Invariant.TakeOverIsSilent | src/broker/Handlers.cpp:153-161 | that publishes no will and loses no session: only the context and the binding go |
| Engine.Engine.CheckConnect | src/broker/Handlers.cpp:115-142 | code 3 if the connection limit is reached, else 1 for a protocol level other than 4, else 2 for an empty id without clean start or an id longer than 23, else none |
| Engine.Engine.Establish | src/broker/Handlers.cpp:163-200 | session, binding, CONNACK and, for a resumed session, the queued messages behind it |
| Engine.Engine.Connect | src/broker/Handlers.cpp:80-205 | the whole handler, with its refusals and violations |
| Engine.Engine.Publish | src/broker/Handlers.cpp:207-277 | the whole handler: duplicates, retained messages, routing, acknowledgement |
| Engine.Engine.Subscribe | src/broker/Handlers.cpp:279-340 | the whole handler, entry by entry, and its SUBACK |
| Engine.Engine.GrantedCodes | src/broker/Handlers.cpp:299-324 | one code per entry: its QoS if the filter is valid, else failure |
| Engine.Engine.Unsubscribe | src/broker/Handlers.cpp:342-376 | the whole handler |
| Engine.Engine.Ack | src/broker/Handlers.cpp:378-419 | the four acknowledgements |
| Engine.Engine.Ping | src/broker/Handlers.cpp:421-434 | answered if connected, else the channel is closed |
| Engine.Engine.Disconnect | src/broker/Handlers.cpp:436-450 | no more messages and no will from here on |
| Engine.Engine.Retry | src/broker/SessionManager.cpp:164-183 | the check of one channel, closing it if a message is out of retries |
| Engine.Engine.CloseChannel | src/broker/BrokerEngine.cpp:272-305 | the will is published if it is due, retained first if so asked, and then the channel is removed |
| Engine.Engine.Process | src/broker/BrokerEngine.cpp:255-341 | any admissible event, on any state that satisfies the invariant: the objects end up exactly where the state machine does, and only new objects have joined |
| Engine.Engine.Run | src/broker/BrokerEngine.cpp:255-341 | every list of events, on a new engine: the views the engine goes through are exactly the states of the run |
| Invariant.InvStep | src/broker/Handlers.cpp:80-450 | every event keeps the invariant of registries, mirror, queues and retained messages |
| Invariant.InvReachable | src/broker/SessionManager.cpp:61-195 | it holds in every state of every run |
| Guarantees.Ownership | src/broker/SessionManager.cpp:61-149 | in every reachable state a bound client id leads to a registered context of that id that is not taken over and owns the stored session; a session has at most one owner; every stored clean session has one |
| Guarantees.SubscriptionMirror | src/broker/Handlers.cpp:298-364 | in every reachable state each session's list has distinct filters and is, with QoS, exactly what the tree holds for it; the tree holds nothing of other sessions, and valid filters only |
| Guarantees.FewerThanTheMaximum | src/broker/Handlers.cpp:115-118 | in every reachable state fewer clients than the configured maximum are connected, and none if it is 0 |
| Guarantees.MatchingOnce | src/broker/Handlers.cpp:326-331 | of the retained messages each matching topic comes exactly once and no other |
| Guarantees.SubscribeEntries | src/broker/Handlers.cpp:298-324 | after a SUBSCRIBE the tree has each valid filter with the QoS asked for last, and everything else as before |
| Guarantees.SubscribeOutcome | src/broker/Handlers.cpp:279-340 | in every run: entry by entry the matching retained messages, each once, then one SUBACK with that packet's identifier and one code per entry, its QoS if the filter is valid and 0x80 if not; the tree then has each valid filter with the QoS asked for last and everything else as before |
| Outcomes.ConnectOutcome | src/broker/Handlers.cpp:80-186 | a first CONNECT in every run: the channel stays exactly if protocol, level, id and connection limit are acceptable; it then belongs to the client, owns its session (the stored one, or a new and empty one) and is sent a CONNACK that says whether the session was there |
| Outcomes.RefusalOutcome | src/broker/Handlers.cpp:98-142 | a refused first CONNECT in every run: before the channel is closed it is sent one CONNACK, with code 3, 1 or 2 in the order of the checks |
| Outcomes.CleanStart | src/broker/SessionManager.cpp:125-138 | after an accepted clean start nothing of the client's past is left: no subscription in the tree and no queued message |
| Outcomes.UnsubscribeOutcome | src/broker/Handlers.cpp:342-376 | exactly the named filters of the client leave the tree, the other entries keep their QoS, and the answer is one UNSUBACK |
| Outcomes.PingOutcome | src/broker/Handlers.cpp:421-434 | a PINGREQ of a connected client is answered, and nothing else changes |
| Outcomes.PublishIsAcknowledged | src/broker/Handlers.cpp:232-276 | every PUBLISH above QoS 0, new or repeated, is answered by PUBACK or PUBREC as the last thing it causes |
| Intake.NotedIsUnfinished | src/broker/Handlers.cpp:234-240 | in every reachable state an identifier is noted on a channel exactly if a QoS 1 PUBLISH with it was processed there and no PUBACK for it since |
| Intake.PublishOutcome | src/broker/Handlers.cpp:207-277 | a PUBLISH of a connected client with a valid topic, in every run: repeated, told by the history of the channel, it routes and retains nothing; new, it is routed as it came in unless it is a deletion or its QoS is 2, and if marked as retained it replaces or deletes the retained message of its topic |
| Outcomes.EmptyRetainedIsForwardedIff | src/broker/Handlers.cpp:241-262 | in every run a new empty retained PUBLISH deletes the retained message, routes nothing and changes no other connection and no queue; below QoS 2 that is all, at QoS 2 the next PUBREL of its identifier hands it to the router |
| Outcomes.EmptyRetainedIsForwarded | src/broker/Handlers.cpp:241-411 | a run in which the PUBREL does |
| Outcomes.RetainedAreLatest | src/broker/Handlers.cpp:254-266 | in every reachable state the retained messages are, for each topic, the last retained PUBLISH or will that was not deleted since, in the order in which the topics came in |
| Lifecycle.ChannelsEndIff | src/broker/BrokerEngine.cpp:314-341 | in every run an event ends exactly these channels: its own, if the input is a violation, a refused CONNECT, a check with a message out of retries or the end itself; and the one whose client id an accepted CONNECT takes |
| Lifecycle.ContextTells | src/broker/Handlers.cpp:163-169 | in every reachable state a context has the client id and the will of its accepted CONNECT, and is connected exactly if there was one and no DISCONNECT since |
| Lifecycle.WillOutcome | src/broker/BrokerEngine.cpp:284-296 | a channel that ends by its own event, in every run: if its CONNECT announced a will and no DISCONNECT followed, exactly that will is routed, with the topic, payload, QoS and retain flag of the CONNECT and the client's id, and retained if so asked; otherwise nothing is routed or retained |
| Lifecycle.TakeOverOutcome | src/broker/Handlers.cpp:153-161 | a channel ended by another one's event is taken over by an accepted CONNECT, and nothing is routed or retained |
| Lifecycle.NothingElseRoutes | src/broker/Router.cpp:51-87 | beside PUBLISH, PUBREL and the end of a channel no event of any run routes anything |
| Persistence.SessionSurvivesIff | src/broker/SessionManager.cpp:86-149 | in every run a stored persistent session survives every event but an accepted clean start of its client, and its subscriptions change only by SUBSCRIBE and UNSUBSCRIBE of the connection that owns it |
| GeneratedIds.GeneratedIdsDiffer | src/broker/Handlers.cpp:125-137 | in every run two accepted clients without an id of their own are given different ones |
| Delivery.EndToEnd | src/broker/Router.cpp:51-87 | every event of every run, for every client it is not about: if the event routes a message the client gets the fate its own subscriptions prescribe, and if not neither its connection nor its queue changes |
| Delivery.PublisherShare | src/broker/Handlers.cpp:232-276 | in every run: if the publisher's own subscriptions do not match, or nothing is routed, it is sent its acknowledgement alone; if they do, the message once at the lower of its own and the best matching QoS, and then the acknowledgement |
| Delivery.ReleaserShare | src/broker/Handlers.cpp:401-411 | the same for the message a PUBREL releases; the PUBCOMP comes in any case |
| Inbound.HeldIsWaiting | src/broker/Handlers.cpp:241-247 | in every reachable state a channel holds, under each identifier, the first PUBLISH since the last PUBREL and nothing else |
| Inbound.PubrelRoutesTheFirst | src/broker/Handlers.cpp:401-411 | in every run a PUBREL routes the first PUBLISH of its identifier since the previous PUBREL, or nothing if there is none |
| Inbound.RepeatsRouteNothing | src/broker/Handlers.cpp:241-276 | repeated PUBLISHes and repeated PUBRELs route nothing |
| StoreForward.StepQueues | src/broker/Router.cpp:72-85 | an event leaves an offline persistent session with what it had plus what the event routed to it |
| StoreForward.QueueIsMissed | src/broker/Outbox.cpp:40-52 | in every reachable state the queue of a persistent session is the newest 1000 of all messages above QoS 0 routed to it since its client was last connected, in order; empty while connected |
| Resume.ResumptionReplaysMissed | src/broker/Handlers.cpp:171-200 | in every run a resumed session's connection is sent nothing before a CONNACK with session present and then exactly those messages, in order, once each, with DUP; the queue is then empty |
| Resume.ReplayComesFirst | src/broker/Handlers.cpp:190-200 | they come before everything else the connection is ever sent |
| OutboundRuns.OutboundInOrder | src/broker/Router.cpp:107-162 | in every reachable state, for every connection: in-flight messages have QoS 1 or 2 and only QoS 2 ones are released; a message is sent at most eleven times, at least 5 s apart, and never again after its PUBREL |
| OutboundRuns.RepeatsAreCopies | src/broker/Router.cpp:120-162 | in every reachable state, for every connection: of two PUBLISHes of one allocation of an identifier the later is the earlier with DUP and without RETAIN, the same topic, payload, QoS, identifier and source |
| Resending.CheckOutcome | src/broker/SessionManager.cpp:164-183 | the check of a connection, in every run: if a message has been repeated ten times the channel ends; otherwise, if the client is connected, each message in flight for 5 s is sent again exactly once, its PUBREL if that was sent and else the PUBLISH with DUP, and nothing else in the broker changes |
| Resending.PubrecOutcome | src/broker/Handlers.cpp:391-400 | a PUBREC, in every run: for an in-flight QoS 2 message exactly its PUBREL is sent and it alone is marked as released; for any other identifier nothing changes |
| Resending.FinishOutcome | src/broker/Handlers.cpp:387-414 | PUBACK and PUBCOMP, in every run: exactly that identifier is no longer in flight, a PUBACK also frees the inbound one, and nothing is sent |
| OutboundRuns.ConnackComesFirst | src/broker/Handlers.cpp:99-186 | in every reachable state a connection whose client is not known yet has been sent nothing, and the first packet of every other one is an accepting CONNACK |
| OutboundRuns.CopiesAreRouted | src/broker/Router.cpp:51-118 | in every reachable state, for every connection: the PUBLISHes in its history with neither DUP nor RETAIN are exactly what the events so far have routed to it, in order, once each |
| OutboundRuns.ReachByList | src/broker/Router.cpp:53-76 | what a routed message means for a connection: nothing if it is not connected or its client's list does not match, else one copy at the lower of the message's and the best matching QoS |
| OutboundRuns.SentInOrder | src/broker/Router.cpp:89-162 | what a connection has been sent is only ever added to |
| WillSafety.Loop.OnPacket | src/broker/BrokerEngine.cpp:255-270 | the packet is queued, and a DISCONNECT is noted at once; a channel that is not registered is ignored |
| WillSafety.Loop.HandleRequest | src/broker/BrokerEngine.cpp:314-341 | the oldest request is handled, also if its channel has ended in the meantime |
| WillSafety.Loop.OnClose | src/broker/BrokerEngine.cpp:272-305 | publishes the will if the flags say so, unregisters, and does nothing the second time |
| WillSafety.Loop.Connected | src/broker/Handlers.cpp:153-179 | takeover of the previous holder, then the flags of the new connection, and the binding if its channel object exists |
| WillSafety.WillPublishedIff | src/broker/BrokerEngine.cpp:255-305 | over every interleaving: the end of a connection publishes its will exactly if the last CONNECT accepted on it announced one, no DISCONNECT arrived or was handled since, and the end is not a takeover |
| WillSafety.EndsIff | src/broker/BrokerEngine.cpp:272-341 | a connection ends exactly if its channel is closed, the worker handles a violation of it, or it is taken over |
| WillSafety.AtMostOneWill | src/net/Channel.cpp:79-89 | a connection publishes its will at most once in any run |
| WillSafety.NoWillWhenTakenOver | src/broker/Handlers.cpp:153-161 | a connection that was taken over never publishes its will |
| WillSafety.NoWillAfterDisconnect | src/broker/BrokerEngine.cpp:263-268 | a DISCONNECT that arrives after the CONNECT was handled prevents the will |
| WillSafety.EarlyDisconnectIsForgotten | src/broker/Handlers.cpp:163-169 | a run in which a DISCONNECT that arrived before its CONNECT was handled does not |
| WillSafety.LateConnectBinds | src/broker/Handlers.cpp:171-179 | a run in which a CONNECT handled after the end of its channel leaves its client id bound to the ended connection |
| RemainingLength.EncodeRemainingLength | src/protocol/Codec.cpp:54-74 | writes the base-128 digits, at most four, behind a single first byte, and nothing otherwise |
| RemainingLength.DecodeRemainingLength | src/protocol/Codec.cpp:76-94 | the value of the digits and the index behind them; 0 if the buffer ends too early |
| RemainingLength.RoundTrip | src/protocol/Codec.cpp:54-94 | for every number below 128 to the fourth, at any place and before any bytes, decoding gives it back and moves on by exactly the one to four bytes written |
| RemainingLength.Minimal | src/protocol/Codec.cpp:54-94 | no string of bytes that decodes to a number is shorter than its encoding |
| RemainingLength.SurvivesIff | src/protocol/Codec.cpp:54-94 | a number survives encoding and decoding exactly if it is below 128 to the fourth |
| Utf8.IsValidUtf8 | src/common/Utils.hpp:136-201 | accepts exactly the encodings of nonempty sequences of Unicode scalar values as section 3 of RFC 3629 defines them |
| Utf8.ReadOne | src/common/Utils.hpp:142-196 | one round of the loop: lead byte, continuation bytes, overlong forms, surrogates, range |
| Utf8.UniqueReading | src/common/Utils.hpp:136-201 | a byte string encodes at most one such sequence |
| Codec.ReadString16 | src/protocol/Codec.cpp:137-149 | a string that is empty or runs past the buffer is read as empty |
| Codec.StringStands | src/protocol/Codec.cpp:137-180 | a nonempty string is read at a place exactly if it stands there with its length |
| Codec.WriteString16 | src/protocol/Codec.cpp:173-180 | length and bytes |
| Codec.SerializePublish | src/protocol/Codec.cpp:662-687 | header bits, remaining length, topic, identifier above QoS 0, payload |
| Codec.DecodePublish | src/protocol/Codec.cpp:405-445 | the parser step by step, as a function of the buffer |
| Codec.ParsePublishIff | src/protocol/Codec.cpp:405-445 | a buffer is accepted exactly if it begins with a PUBLISH laid out by section 3.3 of MQTT 3.1.1, and that packet is the result |
| Codec.PublishRoundTrip | src/protocol/Codec.cpp:405-777 | every PUBLISH with a UTF-8 topic, a nonzero identifier above QoS 0 and an expressible length is read back unchanged, whatever bytes follow |
| Codec.SerializeAck | src/protocol/Codec.cpp:611-624 | the four bytes of an acknowledgement |
| Codec.DecodeAck | src/protocol/Codec.cpp:213-245 | the parser step by step, as a function of the buffer |
| Codec.ParseAckIff | src/protocol/Codec.cpp:213-245 | a buffer is accepted exactly if it begins with the first byte of its kind and, behind a length that does not run past the buffer, a nonzero identifier, which is the result |
| Codec.AcceptedAckConformsIff | src/protocol/Codec.cpp:213-245 | an accepted buffer begins with the packet of section 3.4 of MQTT 3.1.1 exactly if its length field is the one byte 2 |
| Codec.AckRoundTrip | src/protocol/Codec.cpp:213-624 | every acknowledgement with a nonzero identifier is read back unchanged, whatever bytes follow |
| FilterCodec.ReadEntries | src/protocol/Codec.cpp:517-528 | the loop over the entries ends, each round consuming at least 4 bytes (3 without QoS) or failing, and one entry that is not UTF-8 spoils the packet |
| FilterCodec.EntriesAtIff | src/protocol/Codec.cpp:517-583 | the entries read are exactly a list of entries one behind the other, each beginning before the announced end and none after it |
| FilterCodec.DecodeFilters | src/protocol/Codec.cpp:491-585 | both parsers step by step, as a function of the buffer |
| FilterCodec.ParseFiltersIff | src/protocol/Codec.cpp:491-585 | a buffer is accepted exactly if it begins with such a packet of UTF-8 filters, and that packet is the result |
| FilterCodec.FiltersRoundTrip | src/protocol/Codec.cpp:491-585 | every SUBSCRIBE and UNSUBSCRIBE laid out by sections 3.8.3 and 3.10.3 of MQTT 3.1.1 decodes to its entries in order, whatever bytes follow |
| Framing.Reader.OnRead | src/net/TcpTransport.cpp:51-72 | however many of the requested bytes arrive, every byte read so far is in a packet handed on or in the buffer, in order |
| Framing.Reader.ReadLength | src/net/Channel.cpp:145-181 | one more length byte while the top bit is set, then as many bytes as the length says |
| Framing.Reader.HandOn | src/net/Channel.cpp:183-208 | the buffer holds exactly one whole packet when it is decoded, and reading starts over |
| Framing.OnlyCut | src/net/Channel.cpp:129-208 | a stream has only one division into whole packets and an unfinished rest |
| Framing.Cut | src/net/Channel.cpp:51-208 | for every buffer size, every list of packets and every division of their bytes into reads, exactly these packets are handed on, in order; only the first buffer is longer than its packet, if its configured size is |
| Wire.Decode | src/protocol/Codec.cpp:96-193 | the size limit and the choice of parser by packet type |
| Wire.Survives | src/protocol/Codec.cpp:96-193 | every sendable packet of the modelled types is read back unchanged, whatever bytes follow |
| Wire.Receive | src/net/Channel.cpp:51-208 | for every list of sendable packets, every division of their bytes into reads and every configuration: exactly that list is decoded, in order, if the buffer size is not above the packet limit, else the first packet is refused and nothing follows |
| SendQueue.Transport.AsyncSend | src/net/TcpTransport.cpp:74-88 | queued unless closing or full, and written at once if nothing is under way |
| SendQueue.Transport.OnWritten | src/net/TcpTransport.cpp:100-120 | the front leaves the queue and the next write starts, unless closing; a failed write closes |
| SendQueue.Transport.CloseSocket | src/net/TcpTransport.cpp:90-98 | the socket is closed at once exactly if nothing is pending |
| SendQueue.SentInOrder | src/net/TcpTransport.cpp:74-120 | in every reachable state: at most one write is under way and it is the front; what was written followed by the queue is what was accepted, in order; at most 1025 buffers; until closing nothing waits without being written |
| SendQueue.AcceptedIff | src/net/TcpTransport.cpp:74-88 | a buffer is accepted exactly if the transport is not closing and at most 1024 are waiting |
| SendQueue.AfterClose | src/net/TcpTransport.cpp:90-120 | with two or more buffers pending at the close the write under way is the last one, the rest stays queued and the socket stays open for good; with one, it closes after that write |
| SendQueue.TwoPendingStayOpen | src/net/TcpTransport.cpp:74-120 | a run with two buffers pending at the close: after the first write the second stays queued, whatever comes next, and the socket stays open |
| SendQueue.ClosesIff | src/net/TcpTransport.cpp:90-98 | the next successful write closes the socket exactly if one buffer was pending |

## Left out

- CONNECT and the packets without payload: their parsers and serialisers, which add nothing of a new kind to the codec.
- Serialising CONNACK, SUBACK and UNSUBACK: their layouts are read by clients, not by the broker.
- Codec.DecodePublish: a read past the end of the buffer counts as a malformed packet; what the program does there is not described.
- Codec.DecodeAck: the same, if the identifier runs past the end of the buffer.
- Codec.SerializePublish: the length is not cut to 32 bits.
- FilterCodec.DecodeFilters: one parser with a parameter stands for the two parsers of SUBSCRIBE and UNSUBSCRIBE.
- Engine.Engine.Publish: no plugin is asked, and no counter of received or delivered messages is kept.
- Engine.Engine.Connect: user name, password and keepalive are not looked at.
- Engine.Engine.Retry: one channel at a time; the loop over all channels is a sequence of such events.
- TopicTree.TopicTree.Add: valid filters only, because its one caller checks the filter first; a multi-level wildcard before the last level would be stored too.
- RetainStore.RetainStore.Store: a message is stored under its own topic, as both callers do.
- Engine.Engine.GrantedCodes: the codes are computed in a loop of their own, not in the loop that subscribes.
- Session objects are values whose subscription lists stand in a table beside them, so aliasing of session objects is by identity and not by reference.
- Router, session manager and handlers are methods of one class instead of classes that hold references to each other.
- Two handlers running at the same time, and a handler running while its channel ends, apart from the wills.
- Keepalive timeouts, which are ends of channels like any other.
- Rules for topics that begin with a dollar sign, and resending of in-flight messages after a reconnection: the program has none.
- Deduplication of inbound QoS 1 messages beyond what the code does: an identifier is free again only after a PUBACK from the client with the same number.
- Management console, configuration, logging, TLS and WebSocket transports.
