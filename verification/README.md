# Store-and-forward messaging of the MMS, verified

The Maritime Messaging Service carries a message from one agent to all subscribers of its subject:
agent → edge router → router → other routers → their edge routers → agents. Every consumer (an agent at an
edge router, an edge router at a router) has a mailbox that is filled by fan-out, announced by a notifier
and emptied by Receive requests. This project models the three files that do it, `consumer/consumer.go`,
`edgerouter/edgerouter.go` and `router/router.go`, with the message shapes of `mmtp/mmtp.proto`, and proves what
they promise together.

There are three layers.

1. **Objects.** `Consumer.dfy`, `EdgeRouter.dfy` and `Router.dfy` are classes whose methods update maps, agents,
   subscriptions and channels in place, as the handlers do. Each method is proved against functions on values
   (`MailboxSpec.dfy`, `Routing.dfy`), with framing over the aliased agents and mailboxes, and keeps `Valid()`.
2. **One mailbox under its locks.** `MailboxRuns.dfy` is a transition system whose steps are what a handler does
   while it holds one of the two mailbox locks. `Locks.dfy` and `LockPrograms.dfy` have the lock operations of
   every handler.
3. **The network.** `Network.dfy` is a transition system of any number of agents, edge routers and routers. A
   step is one handler run, built of the same functions that the classes are proved against (`Agreement.dfy`). On it rest
   at-most-once and exactly-once delivery, the end of dissemination, subscription coverage and the agreement of topics
   and tables.

| file | what is in it |
|---|---|
| Mmtp, MailboxSpec, Routing, Interests | message shapes; mailboxes, tables, channels and interest lists as values |
| Consumer, EdgeRouter, Router | the classes |
| GarbageCollection, MailboxRuns, Outboxes | runs of one mailbox and of one outgoing channel |
| Network, NetworkInvariant, NetworkSteps, Topics | the network, its invariant, and what follows for topics and links |
| Copies, PotentialSpec, PotentialSteps, AtMostOnce, NobodyElse, Pull, PullGap, EndToEnd | delivery end to end |
| Weighing, Dissemination | the weighted count that each forwarding step lowers |
| Coverage, CoverageGap, Awaiting, AwaitingGap | aggregated subscriptions |
| Locks, LockPrograms | rank order of the locks |
| Effects | what each handler does, said of keys, entries and members, without the functions that it is proved against |
| Agreement | network steps against the classes' contracts |

`dafny verify dfyconfig.toml` checks everything.

## Assumptions

- In the network a handler run is one step. `QueueMessage` takes its two locks one after the other
  (`consumer/consumer.go:50-55`); results of `MailboxRuns` hold at lock granularity, and say where that differs.
- A write succeeds and is received, or fails and is not received. Which one is up to the environment, at every write.
- Each UUID that the code generates, and each UUID of an accepted request of an agent, is new. `SendId` stands for the
  body and signature of a message, which no handler looks into, and tells accepted Sends apart.
- One session per edge router MRN at a router, and one session per agent in the network.
- Pubsub hands a publication once to every listener of the topic that is there at that time.
- Clocks are one integer that never decreases. Notifiers and garbage collection run at any time.
- The edge router runs with TLS. The outcomes of certificate and signature checks are parameters, and so are
  `strings.ToLower` and the case folding behind `strings.EqualFold`.
- Lengths of strings count characters of `string`, where Go counts bytes.
- `names`, `sent`, `delivered`, `joins`, `written`, `pushed`, `failed`, `published`, `known`, `noted` and `changes` are history for
  the proofs; no handler reads them.

## Where a promise fails

The code is modelled as it is. Where a natural promise does not hold there is a lemma with a case in which it fails, and one
that says exactly when it holds.

- A receive between the two locks of a `QueueMessage` leaves a notification for a delivered live message:
  `MailboxRuns.RaceLeavesNotification` has a run. `DanglingStep` has the condition under which a step leaves one, and
  `DanglingExactly` shows that a run ever has one if and only if some step meets it; for a receive that nothing interrupts,
  `FilteredRaceExactly` and `FullRaceExactly` say so of the state in which it starts.
- Garbage collection is visible to a filtered receive, which does not look at the expiry:
  `GarbageCollection.CollectionHidesExpired` has a mailbox, `FilteredReceiveSeesCollection` says exactly when.
- A response to a Receive that fails to be written puts the messages back without their notifications, and nothing asks for
  them any more: `PullGap.NeverDelivered` has a run in which a served subscriber never gets a message. `Pull.StrandsExactly`
  says when a step strands a message, and `Pull.RunCovered` that a run has a stranded one if and only if some step does.
- An agent that subscribes to its own MRN as a subject loses coverage when it leaves direct messages:
  `CoverageGap.MissesSubscriber` has the run. `Coverage.CoverageLostExactly` says when a step ends coverage: it handles an
  Unsubscribe for the subject while the Subscribe is neither queued nor awaited, or while its acceptance is on its way down.
  `Coverage.RunCoverageExactly` shows that a subject is ever without coverage if and only if some step does that.
- A Subscribe that the router refuses with an answer that fails to be written is never repeated, because only an answer makes
  the edge router repeat it: `AwaitingGap.NeverAccepted` has a run that ends idle with a local subscriber the router does not
  know of. `Awaiting.MissedExactly` says when a step leaves a Subscribe awaited, not accepted and with nothing under way for it,
  and when that ends; `Awaiting.RunMissedExactly` lifts it to runs. For a subject that is nobody's MRN it never ends
  (`MissedForEver`), and `AcceptedUnlessGivenUp` makes it the only way to miss a subscriber.
- A publication that fails is not repeated: `AtMostOnce.CopiesExactly` shows that a served agent then ends without a copy if and
  only if its router is not the sender's, and with one otherwise.
- Two subjects that differ by case only break the interest list: `Interests.CaseClash`, against `QuitBreaksExactly`.
- A router's Send handler returns with locks held when a message without a UUID has somebody to be queued for:
  `LockPrograms.EarlyReturnBlocks`, against `OrderedExactly`; a mix of handlers that has come to a stop has finished with no lock
  held if and only if none of them returned early (`StopsCleanExactly`).
- The router's dispatcher dereferences a missing table entry for a recipient nobody subscribed for:
  `Routers.MissingEntry` has a router and a message, and `Routers.MMSRouter.HandleIncoming` says exactly when; for
  subject-casts of the network it never happens (`Topics.DispatchedHasEntry`).

## Model

| member | source | states |
|---|---|---|
| MailboxSpec.SelectedExact | consumer/consumer.go:137-149 | a filtered receive answers each requested UUID that is stored, once, in the order of first mention, and nothing else |
| MailboxSpec.SelectionUnique | consumer/consumer.go:137-149 | that order and that set leave only one possible answer |
| Consumers.Consumer.QueueMessage | consumer/consumer.go:44-60 | a message with a UUID enters both maps; a missing UUID or a nil consumer is reported and changes nothing; well-formedness is kept |
| Consumers.Consumer.BulkQueueMessages | consumer/consumer.go:62-70 | the messages are put back one after the other, without notifications |
| Consumers.MergeBack | consumer/consumer.go:62-70 | putting messages of a store back into what is left of it restores exactly their keys, with their old values |
| Consumers.FailedReceiveRestores | consumer/consumer.go:131-165 | what a filtered receive took, put back after a failed write, gives the original message map |
| Consumers.Consumer.CheckNewMessages | consumer/consumer.go:72-125 | one Notify lists every due notification of a well-formed mailbox once; the notification map is emptied exactly when it was written |
| Consumers.Consumer.ListMetadata | consumer/consumer.go:72-80 | one entry a message, under the message's own UUID, no duplicates, with its header |
| Consumers.Consumer.HandleReceive | consumer/consumer.go:129-206 | response contents and both maps after a filtered or unfiltered Receive, written or not; well-formed mailboxes make the header dereference defined |
| Consumers.Consumer.TakeSelected | consumer/consumer.go:135-150 | the loop moves exactly the selected messages out of both maps |
| Consumers.Consumer.ReceiveFiltered | consumer/consumer.go:131-165 | the mailbox loses exactly the answered keys, or, after a failed write, no message |
| Consumers.Consumer.ReceiveEverything | consumer/consumer.go:166-203 | the answer is the live messages; a written one clears the map, expired messages included |
| Consumers.Consumer.ListEverything | consumer/consumer.go:171-183 | the loop lists the live messages, each once, and drops their notifications and no others |
| Consumers.Consumer.ListLive | consumer/consumer.go:238-252 | lists the live messages and leaves exactly those |
| Consumers.Consumer.HandleFetch | consumer/consumer.go:234-269 | headers of the live messages; the expired ones are deleted whether or not the write succeeds |
| Consumers.Consumer.CollectGarbage | edgerouter/edgerouter.go:350-357 | exactly the expired messages go, although the entry is deleted by its message's UUID |
| Consumers.Consumer.DropInterest | edgerouter/edgerouter.go:765-774 | the in-place swap-delete computes `WithoutFirst` |
| GarbageCollection.CollectionsAreUnobservable | edgerouter/edgerouter.go:340-362 | two runs that differ by any garbage collections give the same answers to every receive-all and fetch |
| GarbageCollection.CollectionsAreUnobservableFrom | consumer/consumer.go:171-183 | the same from any two mailboxes with the same live messages |
| GarbageCollection.AnswersAreWhole | consumer/consumer.go:239-252 | what a run shows of a receive-all or fetch is its whole set of entries |
| Effects.ShownIsAnswered | consumer/consumer.go:72-269 | the keys shown by a fetch, a receive and a Notify of such a run are exactly those that the handler's answer lists |
| Effects.EventsAreHandlers | consumer/consumer.go:44-269 | the mailbox after each event of such a run is the one that the handler leaves |
| Effects.ReceivedExactly | consumer/consumer.go:129-206 | which keys each map holds after a Receive, filtered or not, written or not, with their old values |
| Effects.ReceivedAnswer | consumer/consumer.go:137-183 | a UUID is answered, once and with its stored message, if and only if it is stored and was named, or, when none was named, has not expired |
| Effects.FetchedExactly | consumer/consumer.go:234-269 | a header is listed, once, if and only if its message is stored and has not expired; only expired messages go |
| Effects.NotifiedExactly | consumer/consumer.go:72-106 | a Notify lists exactly the due notifications, and a written one clears them and nothing else |
| GarbageCollection.FilteredReceiveSeesCollection | consumer/consumer.go:131-149 | a collection before a filtered receive is visible exactly when an expired message was asked for |
| GarbageCollection.CollectionHidesExpired | consumer/consumer.go:137-149 | a mailbox and a request for which a collection changes the answer |
| MailboxRuns.RunInvariant | consumer/consumer.go:44-206 | the per-UUID invariant of every interleaving of handlers at lock granularity |
| MailboxRuns.ExactlyOnePlace | consumer/consumer.go:129-206 | every accepted UUID is stored, held by a receive, delivered or dropped after expiring, in no more places than times queued; queued once, in exactly one |
| MailboxRuns.StoredWellFormed | consumer/consumer.go:44-206 | no interleaving, failed write or putting back spoils what was well formed when it was queued; that it was is `EdgeRouters.StoredWellFormed` and `Routers.StoredWellFormed` |
| MailboxRuns.NoLostNotification | consumer/consumer.go:44-125 | a stored message without a notification is between the locks of its queueing, was in a written Notify, or was put in a response |
| MailboxRuns.DanglingNotification | consumer/consumer.go:145-149 | a notification without a message is for an expired one or for one that a receive took between the locks |
| MailboxRuns.DanglingIsDelivered | consumer/consumer.go:145-149 | if the message is live, it was delivered |
| MailboxRuns.DanglingStep | consumer/consumer.go:50-55 | a step leaves a notification for a live message that is gone exactly when it is the second half of a queueing that finds its message gone, or a written response that takes the last copy while a notification is due |
| MailboxRuns.DanglingExactly | consumer/consumer.go:44-206 | a run ever has such a notification if and only if some step of it meets that condition |
| MailboxRuns.FilteredRaceExactly | consumer/consumer.go:131-165 | an uninterrupted filtered receive of a live stored message leaves one if and only if it asks for the message between the two locks of its queueing, whichever order the rest takes |
| MailboxRuns.FullRaceExactly | consumer/consumer.go:167-203 | an unfiltered one does so if and only if the queueing is between its locks |
| MailboxRuns.DanglingOnlyIfExpired | consumer/consumer.go:44-60 | with queueing as one step only the first is left |
| MailboxRuns.RaceLeavesNotification | consumer/consumer.go:50-55 | a run in which the race happens |
| MailboxRuns.ReceiveSomeIsThreeSteps | consumer/consumer.go:135-165 | the filtered receive is the uninterrupted sequence of its lock-level steps |
| MailboxRuns.ReceiveAllIsTwoSteps | consumer/consumer.go:167-203 | so is the unfiltered one |
| MailboxRuns.QueueIsTwoSteps | consumer/consumer.go:44-60 | queueing is its two halves |
| MailboxRuns.NotifyAndExpireAreOneStep | consumer/consumer.go:72-106 | a round of the notifier and a collection are one step each |
| Interests.RemovesFirstMatch | edgerouter/edgerouter.go:765-774 | exactly the first case-insensitive match goes, the rest stay as a multiset; without a match nothing changes |
| Interests.QuitBreaksExactly | edgerouter/edgerouter.go:752-774 | an Unsubscribe breaks "subscribed implies listed" if and only if it removes the last mention of another subscribed subject |
| Interests.ListedAlways | edgerouter/edgerouter.go:664-675 | over all runs membership implies a place on the list, when no two subjects in use differ by case only |
| Interests.CaseClash | router/router.go:568-577 | a run with two such subjects that breaks it |
| Routing.FanOutTwice | edgerouter/edgerouter.go:861-885 | fanning out twice is fanning out to the union: a second copy makes no difference |
| Effects.DeliveredExactly | edgerouter/edgerouter.go:976-1034 | each entry of a response is in a mailbox, under its new UUID and as message and notification, if and only if it is within the expiry window of 30 days and the owner subscribes to its subject or holds a listed MRN and takes direct messages; no other key changes |
| Effects.SentExactly | edgerouter/edgerouter.go:861-885 | the mailboxes that gain a local agent's Send are exactly those of its subject's subscribers with another MRN, or of the listed holders that take direct messages |
| Effects.BecomesDirectReceiver | edgerouter/edgerouter.go:446-500 | after connecting with an MRN and a granted direct Subscribe the agent is found under the MRN, also when another session had it, and takes direct messages |
| Effects.DirectReceiverGets | edgerouter/edgerouter.go:1016-1034 | such an agent has every live entry of the next response that lists its MRN |
| Effects.RouterSentExactly | router/router.go:597-634 | the mailboxes at a router that gain a Send are exactly those of the other edge routers that subscribed for its subject or a listed MRN |
| Effects.DispatchedExactly | router/router.go:740-775 | a dispatched message is queued if and only if it is within the expiry window, for the subject's subscribers, or for those of each listed MRN before which and for which there is a table entry; when no entry is missing |
| Effects.MembersAfter | edgerouter/edgerouter.go:664-674 | a subscription adds one member of one subject, leaving takes it out and keeps the key |
| Effects.EnrolledExactly | router/router.go:484-520 | when a router accepts a Subscribe, and exactly which members, topics and listeners there are then |
| Effects.WrittenExactly | edgerouter/edgerouter.go:1057-1095 | what is dropped, rotated, written and awaited: written Subscribes and Unsubscribes, and nothing else |
| Effects.AnsweredExactly | edgerouter/edgerouter.go:956-974 | a response ends the waiting for its request, and queues it once more if and only if it is not Good |
| EdgeRouters.AbstractionIs | edgerouter/edgerouter.go:62-126 | mailboxes, index, direct receivers, subscribers and channel that the contracts speak of are the objects' own |
| EdgeRouters.AddressedAgents | edgerouter/edgerouter.go:861-885 | whom an accepted Send is queued for, said of subscription objects and the index |
| Routers.AbstractionIs | router/router.go:73-118 | so are mailboxes, subscribers and topics of a router |
| EdgeRouters.Subscription.SnapshotSubscribers | edgerouter/edgerouter.go:96-106 | the snapshot has exactly the subscribers |
| EdgeRouters.EdgeRouter.Connect | edgerouter/edgerouter.go:446-500 | refusal without a certificate; resumption by any token handed out keeps agent, mailbox and index; otherwise a new agent with an empty mailbox, indexed under its MRN |
| EdgeRouters.EdgeRouter.HandleDisconnect | edgerouter/edgerouter.go:590-606 | an answered Disconnect forgets the MRN and the current token only |
| EdgeRouters.EdgeRouter.HandleSubscribe | edgerouter/edgerouter.go:646-738 | both kinds of Subscribe, with their refusals; only an agent with an MRN becomes a receiver of direct messages |
| EdgeRouters.EdgeRouter.HandleSubscribeSubject | edgerouter/edgerouter.go:658-691 | the table gains the agent, the list the subject, and the Subscribe goes on exactly for a new subject |
| EdgeRouters.EdgeRouter.HandleSubscribeDirect | edgerouter/edgerouter.go:693-738 | granted only with the flag, an MRN and a certificate; then the agent takes direct messages and a Subscribe for its MRN is pushed, else nothing changes |
| EdgeRouters.EdgeRouter.HandleUnsubscribe | edgerouter/edgerouter.go:740-834 | both kinds of Unsubscribe, with their refusals; only leaving a subject touches the table and the interest list |
| EdgeRouters.EdgeRouter.HandleUnsubscribeSubject | edgerouter/edgerouter.go:752-789 | the table loses the agent, the list its first match; the key stays and the router is not told |
| EdgeRouters.EdgeRouter.HandleUnsubscribeDirect | edgerouter/edgerouter.go:791-834 | with the flag and an MRN the agent stops taking direct messages and an Unsubscribe for its MRN is pushed; without an MRN there is no answer |
| EdgeRouters.EdgeRouter.HandleSend | edgerouter/edgerouter.go:836-900 | each of the four refusals is answered with an error and leaves channel and mailboxes alone; otherwise the answer is Good, and the message is pushed and queued once for exactly its local addressees |
| EdgeRouters.EdgeRouter.QueueForRecipients | edgerouter/edgerouter.go:861-871 | the recipient loop has set semantics on the aliased heap: selected mailboxes get one entry, all others are untouched |
| EdgeRouters.EdgeRouter.QueueForOthers | edgerouter/edgerouter.go:872-885 | the subscriber loop leaves out every agent with the sender's MRN |
| EdgeRouters.RecipientListIsSet | edgerouter/edgerouter.go:1019-1029 | order and repetition of recipients make no difference |
| EdgeRouters.RecipientFanOutExact | edgerouter/edgerouter.go:1019-1029 | a mailbox changes if and only if its owner is indexed under a listed MRN and takes direct messages, and then by one entry |
| EdgeRouters.EdgeRouter.WriteOutgoing | edgerouter/edgerouter.go:1057-1095 | drops what is no protocol message, rotates a failed write to the back, remembers a written request |
| EdgeRouters.EdgeRouter.HandleNotify | edgerouter/edgerouter.go:365-393 | the Receive asks for exactly what the Notify mentions |
| EdgeRouters.EdgeRouter.SettleResponse | edgerouter/edgerouter.go:956-974 | the request is forgotten and repeated exactly after an error |
| EdgeRouters.EdgeRouter.DeliverContents | edgerouter/edgerouter.go:976-1032 | the loop over the entries of a response computes `Deliver` |
| EdgeRouters.EdgeRouter.HandleIncoming | edgerouter/edgerouter.go:933-1055 | every kind of message from the router: bookkeeping, delivery of entries within the expiry window, answer to a Notify, discard |
| EdgeRouters.DeliverAdmitted | edgerouter/edgerouter.go:976-1032 | delivery keeps every mailbox well formed and admits recipient-cast messages only to listed MRNs that take direct messages |
| EdgeRouters.EdgeRouter.Receive | edgerouter/edgerouter.go:578-583 | a Receive changes the one mailbox, keeps `Valid`, and is answered as `Consumer.HandleReceive` answers it |
| EdgeRouters.EdgeRouter.FetchHeaders | edgerouter/edgerouter.go:584-589 | so does a Fetch, with the headers of the live messages |
| EdgeRouters.EdgeRouter.Notify | consumer/consumer.go:108-125 | so does a notifier round, whose Notify lists every due notification |
| EdgeRouters.EdgeRouter.MessageGC | edgerouter/edgerouter.go:340-362 | in the mailbox of each agent that a token leads to a message stays if and only if it has not expired, and all else is unchanged, though stale tokens visit an agent twice |
| EdgeRouters.DirectMessageAdmission | edgerouter/edgerouter.go:861-871 | in every valid state: the index finds an agent under its own MRN, direct messages imply authentication, and a recipient-addressed message in a mailbox lists the owner and was queued while the owner took direct messages |
| EdgeRouters.DeliversDirectOnly | edgerouter/edgerouter.go:1016-1031 | delivery adds recipient-addressed messages to mailboxes of agents that take direct messages only |
| EdgeRouters.SendsDirectOnly | edgerouter/edgerouter.go:861-885 | so does the fan-out of a local Send |
| EdgeRouters.StoredWellFormed | edgerouter/edgerouter.go:978-1032 | all queueing paths of an edge router store Sends with a header under their own non-empty UUID |
| EdgeRouters.JoinRight | edgerouter/edgerouter.go:664-675 | a subscription is one `Joins` of the agent's membership and leaves all others |
| EdgeRouters.QuitRight | edgerouter/edgerouter.go:752-774 | leaving a subject is one `Quits` |
| EdgeRouters.SubscribersListed | edgerouter/edgerouter.go:752-774 | in every valid state a subscriber of a subject has it on its interest list, when no two subjects it joined or left differ by case only |
| EdgeRouters.ChannelKept | edgerouter/edgerouter.go:1057-1095 | in every valid state the outgoing channel, the writes and the awaited requests are protocol messages, pushed is written plus queued, and in order unless a write failed |
| Routers.MMSRouter.Connect | router/router.go:350-367 | a new session with an empty mailbox |
| Routers.MMSRouter.Join | router/router.go:494-503 | a topic is joined only without a handle; a failure leaves everything |
| Routers.MMSRouter.HandleSubscribe | router/router.go:484-535 | table, topics and listeners as `RouterSubscribe` says for each outcome of join and subscribe; keeps topics and tables in step |
| Routers.MMSRouter.HandleUnsubscribe | router/router.go:537-591 | the entry loses the edge router, the topic and listener stay; errors for an empty subject or a missing body |
| Routers.MMSRouter.HandleSend | router/router.go:593-649 | queued for publication and, once, for exactly the other addressed edge routers; unanswered exactly when the UUID is missing and somebody is addressed |
| Routers.MMSRouter.QueueForRecipients | router/router.go:598-617 | set semantics of the recipient loop, minus the origin |
| Routers.MMSRouter.Listen | router/router.go:682-719 | only Sends of other routers with a version 4 UUID reach the incoming channel |
| Routers.MMSRouter.HandleIncoming | router/router.go:722-784 | within the window exactly the addressed mailboxes get the message; `ok` if and only if every looked-up entry exists |
| Routers.MMSRouter.HandleOutgoing | router/router.go:786-852 | joins and publications of a message, whatever fails; when nothing fails, one posting on the subject's topic, or on each recipient's in order |
| Routers.PublishedExactly | router/router.go:825-842 | whatever fails, the postings are those for the recipients whose topic the router has or joins and whose publication goes out, in order; and the topics that it has then |
| Routers.PublicationsOf | router/router.go:796-842 | on which topics a message is published: those of its recipients, that of its subject, or none |
| Routers.MMSRouter.MessageGC | router/router.go:195-217 | in every mailbox a message stays if and only if it has not expired, and the notifications are unchanged |
| Routers.StoredWellFormed | router/router.go:597-634 | all queueing paths of a router store Sends with a header under their own non-empty UUID |
| Routers.MissingEntry | router/router.go:763-767 | a router and a recipient-cast for which the dispatcher meets a missing entry, after it queued the message for the recipient before |
| Routing.SubscribeKeepsTopics | router/router.go:490-517 | a Subscribe, failed or not, keeps handles, listeners and table in step |
| Routers.PublishKeepsTopics | router/router.go:807-845 | so do the joins of a publication |
| Agreement.AcceptanceAgrees | edgerouter/edgerouter.go:836-860 | Sends of the network pass the handler's checks |
| Agreement.RouterSendAgrees | router/router.go:593-634 | the network's router step and the handler queue for the same edge routers |
| Agreement.IncomingAgrees | router/router.go:750-761 | so do the dispatching steps |
| Agreement.PublishAgrees | router/router.go:786-824 | and the publishing ones |
| Agreement.AddresseesAgree | edgerouter/edgerouter.go:872-885 | the network queues a Send for the agents that the edge router's handler addresses, whatever its index and direct receivers |
| Agreement.SendAgrees | edgerouter/edgerouter.go:836-900 | the Send step leaves mailboxes and channel as the handler does, and no mailbox of another edge router changes |
| Agreement.SubscribeAgrees | edgerouter/edgerouter.go:658-675 | so do the subscribing |
| Agreement.UnsubscribeAgrees | edgerouter/edgerouter.go:752-764 | and the unsubscribing step for the table |
| Agreement.DeliverAgrees | edgerouter/edgerouter.go:976-1034 | entries of a response with subject-casts are queued for the same agents |
| Agreement.UnpackAgrees | edgerouter/edgerouter.go:956-1055 | a response or Notify leaves channel and mailboxes as the edge router's handler does |
| Agreement.AgentReceiveAgrees | consumer/consumer.go:129-206 | an agent's Receive leaves the mailbox as the consumer's handler does, and what counts as delivered is what a written response lists |
| Agreement.WriteAgrees | edgerouter/edgerouter.go:1057-1095 | the writing step leaves the channel as the writer does, and the link gains what was written |
| Agreement.PullAgrees | consumer/consumer.go:72-125 | the notifier step leaves the mailbox, and sends a Notify, as the notifier does |
| Agreement.ReceiveAgrees | consumer/consumer.go:129-206 | so does the step for a Receive of an edge router |
| Agreement.ListenAgrees | router/router.go:682-719 | a listener keeps the publications that the handler keeps |
| Agreement.RouterSubscribeAgrees | router/router.go:484-535 | the router step for a Subscribe leaves the handler's state and sends the handler's reply |
| Agreement.RouterUnsubscribeAgrees | router/router.go:537-591 | so does the one for an Unsubscribe |
| Network.AnswerStored | consumer/consumer.go:131-183 | whatever order an answer lists, its entries are stored and distinct |
| NetworkInvariant.AgentInv | edgerouter/edgerouter.go:646-900 | agents' steps keep the network invariant |
| NetworkSteps.EdgeInv | edgerouter/edgerouter.go:933-1095 | links, notifier and router service keep it |
| NetworkSteps.RouterInv | router/router.go:682-852 | publication, listening and dispatch keep it |
| NetworkSteps.RunInv | router/router.go:593-852 | it holds in every state of every run: genuine Sends only, none on its way back to its origin, tables of neighbours only |
| PotentialSpec.AgentPotential | edgerouter/edgerouter.go:872-885 | no step of an agent but the Send itself raises the potential of a Send for an agent |
| PotentialSteps.EdgePotential | edgerouter/edgerouter.go:976-1034 | nor a step of an edge router or its link; while the agent is served they keep it |
| PotentialSteps.StepPotential | router/router.go:593-852 | no step raises it, and only a lost publication lowers it for a served agent |
| PotentialSteps.LostPublication | router/router.go:810-823 | a lost publication lowers it by one for an agent of another router than the publishing one, and by nothing for the others |
| AtMostOnce.AtMostOneCopy | router/router.go:593-649 | in every run, with any failures, one accepted subject-cast gives each agent at most one copy, held or received, and no more are under way for it |
| AtMostOnce.NoEcho | edgerouter/edgerouter.go:872-885 | agents with the sender's MRN at the edge router that accepted the Send never get a copy |
| AtMostOnce.PotentialExactly | router/router.go:786-852 | from its Send on, what is under way or there for a served agent is one copy, or none if the agent is at another router and a publication of the Send was lost |
| AtMostOnce.CopiesExactly | router/router.go:786-852 | when nothing of the Send is under way, that many copies are what a served agent has |
| AtMostOnce.PotentialIsOne | edgerouter/edgerouter.go:872-885 | from its Send on, for a served agent, exactly one copy is under way or there |
| AtMostOnce.ExactlyOnce | edgerouter/edgerouter.go:933-1055 | when nothing of the Send is under way, every served agent has exactly one copy |
| NobodyElse.NoneForOthers | router/router.go:750-761 | agents that do not subscribe to the subject never get a copy |
| Pull.StrandsExactly | edgerouter/edgerouter.go:365-393 | a step leaves a message at a router neither due, nor announced, nor asked for, if and only if it is a failed response that takes its notification, or has none to take, and nothing else is under way for it |
| Pull.RunCovered | consumer/consumer.go:131-165 | a run ever has such a message if and only if some step of it strands it |
| Pull.NoFailureNoneStranded | consumer/consumer.go:157-165 | none is stranded when no response to a Receive fails |
| Pull.IdleMeansEmptied | consumer/consumer.go:108-165 | in an idle network whatever is left in a router's mailbox was stranded |
| Pull.IdleMeansQuiet | consumer/consumer.go:108-165 | an idle network that stranded nothing has no copy of any Send under way |
| Pull.ExactlyOnceWhenIdle | router/router.go:722-784 | exactly once as soon as queues, links and notifications have drained and nothing was stranded |
| PullGap.NeverDelivered | consumer/consumer.go:157-165 | a run of twelve steps with one failed response, after which the network is idle and a subscriber served all along has no copy |
| EndToEnd.SubscribedStep | edgerouter/edgerouter.go:752-764 | a subscriber stays one until its own Unsubscribe |
| EndToEnd.SubscriberGetsOne | edgerouter/edgerouter.go:836-885 | an agent whose subscription is accepted or settled when a Send is accepted, and that does not leave the subject, has exactly one copy of it in an idle network that stranded nothing, unless it is at another router and the publication was lost, and then none; nothing is assumed of the tables after the Send |
| Dissemination.StepLowers | edgerouter/edgerouter.go:956-1034 | each step leaves all copies of a Send where they are or strictly lowers their weight, for any fan-out |
| Dissemination.DisseminationEnds | router/router.go:722-852 | in every run the steps that move or drop a copy of a Send, plus what its copies still weigh, stay within a budget set by the size of the network |
| Coverage.FirstSubscribeStays | edgerouter/edgerouter.go:658-675 | the first Subscribe for a subject is in the channel, awaiting an answer or accepted, ever after |
| Coverage.KeyStep | edgerouter/edgerouter.go:664-673 | a step adds a key exactly when it is a first Subscribe, and none removes one |
| Coverage.KeysGrow | edgerouter/edgerouter.go:752-764 | keys of the table only grow over a run |
| Coverage.OneFirstSubscribe | edgerouter/edgerouter.go:664-673 | each key caused exactly one first Subscribe |
| Coverage.EveryKeyCovered | edgerouter/edgerouter.go:1066-1086 | every key is covered in every run without an Unsubscribe of the edge router for it |
| Coverage.SubjectsApart | edgerouter/edgerouter.go:791-819 | there is none for a subject that is no agent's MRN |
| Coverage.SettledMeansAccepted | router/router.go:484-518 | with no request for a subject left to write or awaiting an answer the router's table has the edge router for it, if anybody at the edge router subscribes to it |
| Coverage.CoverageLostExactly | router/router.go:561-567 | a step ends the coverage of a request if and only if it handles such an Unsubscribe while the Subscribe is neither queued nor awaited, or its acceptance is on its way down |
| Coverage.RunCoverageExactly | edgerouter/edgerouter.go:791-819 | from its first Subscribe on a subject is ever without coverage if and only if some step meets that condition |
| CoverageGap.MissesSubscriber | edgerouter/edgerouter.go:791-819 | a run of seven steps that leaves a local subscriber without coverage, one of which meets it |
| Awaiting.StepSingle | edgerouter/edgerouter.go:956-974 | a request is in one place at most, and a step leaves it awaited with nothing under way if and only if its reply fails to be written, or it was so before |
| Awaiting.JoinedStep | router/router.go:484-567 | the router's table gains an edge router exactly by an accepted Subscribe and loses it exactly by an Unsubscribe |
| Awaiting.MissedExactly | router/router.go:484-535 | a step leaves a Subscribe awaited in vain and not accepted if and only if the router refuses it unheard, or drops an entry whose acceptance was lost; it ends only with another accepted Subscribe for the subject |
| Awaiting.RunMissedExactly | edgerouter/edgerouter.go:956-974 | that ever happens to a first Subscribe if and only if some step meets the condition |
| Awaiting.MissedForEver | edgerouter/edgerouter.go:664-673 | for a subject that is nobody's MRN it then stays so in every continuation |
| Awaiting.AcceptedUnlessGivenUp | edgerouter/edgerouter.go:956-974 | for such a subject, once its first Subscribe and any answer to it have been handled, the router has the edge router if and only if no step gave the Subscribe up |
| Awaiting.SubscribersReached | edgerouter/edgerouter.go:658-675 | so every subject with a local subscriber had a first Subscribe, which is given up or accepted |
| AwaitingGap.NeverAccepted | router/router.go:494-501 | a run of three steps with a failed join and a lost refusal, after which the network is idle and the router does not know of a subscriber |
| Topics.TopicsAndTablesAgree | router/router.go:490-517 | each topic is joined at most once, table keys have handles, every table subject has exactly one listener and nothing else has |
| Topics.DispatchedHasEntry | router/router.go:750-761 | every message in an incoming channel has a table entry |
| Topics.LinkTraffic | edgerouter/edgerouter.go:1036-1048 | what may be on the links between edge routers and routers |
| Locks.StepInv | consumer/consumer.go:129-206 | mutual exclusion and rank order are kept by every step of every thread |
| Locks.SomeoneCanStep | edgerouter/edgerouter.go:836-885 | with an unfinished handler, some handler can go on, readers waiting for pending writers included |
| Locks.NoDeadlock | router/router.go:593-634 | every run is finite, and one that stops has finished all handlers with no lock held |
| LockPrograms.OrderedExactly | router/router.go:593-634 | a handler keeps the rank order and releases all its locks if and only if it does not return early |
| LockPrograms.EarlyReturnHolds | router/router.go:604-611 | exactly the locks that an early return leaves |
| LockPrograms.MailboxesLocked | consumer/consumer.go:44-269 | a handler that does not return early locks messages and notifications of a mailbox exactly once for each time that it queues, collects, receives, fetches, notifies or puts back there |
| LockPrograms.AnyMixFinishes | edgerouter/edgerouter.go:836-885 | any number of handlers that do not return early finish in any mix |
| LockPrograms.StopsCleanExactly | router/router.go:593-634 | a mix that cannot go on has finished with no lock held if and only if none of its handlers returned early |
| LockPrograms.EarlyReturnBlocks | router/router.go:619-632 | one early return blocks a later Subscribe for ever |
| Outboxes.HoldsOnlyProtocol | edgerouter/edgerouter.go:1066-1086 | in every run of pushes, writes and answers the channel only holds protocol messages; what awaits an answer is a written request |
| Outboxes.NothingLostOrDoubled | edgerouter/edgerouter.go:1057-1095 | under any pattern of failures pushed is written plus queued, as multisets |
| Outboxes.KeepsOrder | edgerouter/edgerouter.go:1057-1095 | first in, first out without failures |

## Left out

- WebSocket, TLS, HTTP and protobuf marshalling: a message is a value and a write is a Boolean; a marshalling error of the publisher is not modelled.
- Certificates, signatures, OCSP and CRL: parameters that say how a check ended.
- libp2p, discovery and gossip: a topic is a name, and publications are queues to the listeners.
- Recipient-casts in the network: the network carries subject-casts only; the classes handle both.
- The reconnect-token branch of the router, and an edge router that connects again after link loss: no result spans them.
- The dispatch loops of connections, the size limit of 50 KiB and the replies to malformed messages; `Routing.RequestOf` has the router's dispatch of well-typed messages, and `EdgeRouter.HandleSubscribe` and `HandleSend` demand the edge router's guard, that it is a protocol message (`edgerouter/edgerouter.go:542-576`).
- Receive, Fetch and notifier rounds of an edge router's mailbox in `MMSRouter`: they are the consumer's methods, and `EdgeRouter` shows that they keep the rest.
- Concurrency inside the classes: their methods run one at a time; interleavings are in `MailboxRuns` and `Locks`.
- The Go iteration order of maps: loops take the keys in any order, and contracts do not depend on it.
- Channels that run full, and writes that never return: sends and writes end.
- Metrics, health server, mDNS, flags, key generation, logging and Dockerfiles.
- Routers.MMSRouter.Connect: demands that the MRN has no session, because a second one gets a new mailbox while the subscriber tables keep the old one (`router/router.go:351-367`).
- MailboxRuns.StoredWellFormed: takes a storable message as given when it is queued; `EdgeRouters.StoredWellFormed` and `Routers.StoredWellFormed` show it of the queueing handlers.
- MailboxRuns.ExactlyOnePlace: batches of different failed receives are one bag, and any part of it may be put back at a time.
- AtMostOnce.ExactlyOnce: holds for agents that the tables and the expiry served from the Send on, and when no publication of the Send failed: the code does not repeat a lost publication. `CopiesExactly` has the other case, and `EndToEnd.SubscriberGetsOne` follows the tables from the accepted subscription.
- Locks.SomeoneCanStep: the handler that can go on holds a lock, or is the writer that readers of a free lock wait for.
