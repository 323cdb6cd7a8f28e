# Gravity, verified

Gravity connects publishers, subscribers and services through a service directory. This project models the state machines
behind its sockets and proves what they keep over every run. Sockets are fresh numbers, connections are first-in-first-out
sequences, and the time is an argument.

How the pieces fit together:

- **Service directory** (`Directory`, `DirectoryRuns`, `DirectoryStreams`, `DirectoryTimes`, `DirectoryHoldings`,
  `DirectoryBroadcast`, `DirectoryExamples`, `ServiceLookups`, `ServiceTimes`, `PublisherHistories`, `DirectoryServer`):
  `Directory` holds what each request does to the tables and to the two streams the directory publishes.
  `DirectoryServer.ServiceDirectory` is the program with its tables changed in place, each method proved to do exactly that. The
  other modules prove what every run keeps, and what lookups answer in terms of the requests alone.
- **Replication** (`Replication`, `RemoteTables`, `Leaving`, `Restarts`, `RestartExamples`, `Synchronizing`, `SynchronizingRuns`,
  `Removals`, `RemovalExamples`, `ServicePictures`, `ServiceReplication`, `Synchronizers`): a directory that replays the
  broadcast of another. `Replication` has one link between two directories, `Restarts` lets the source restart, be followed anew
  and be left, and `Synchronizing` has the synchronizer with any number of domains at once, each of which moves as such a link.
  `RemoteTables` and `Leaving` say what requests about another domain do to its tables, `ServiceReplication` is about services
  on one link; `Synchronizers.Synchronizer` is the program, and `Removals` is about its Remove command.
- **Recovery** (`Recovery`, `RelayRecovery`, `GravityNodes`): nodes that register everything again after a restart of the
  directory.
- **Subscriptions** (`Subscriptions`, `Reconciliation`, `Refreshing`, `Updating`, `Acceptance`, `Subscribing`,
  `SubscriptionRuns`, `Watching`, `Remembering`, `LateSubscribers`, `SubscriptionLaws`, `SubscriptionExamples`,
  `SubscriptionManagers`, `Relays`): the five cross-linked tables, how a publisher list is reconciled with them, which data is
  accepted, and the class that does it. `Watching` shows that the whole machinery of sockets refines a rule about maps from URLs
  to registration times, and `Remembering` that what is handed out refines one about the last value of each connection.
- **Publishing** (`Publishing`, `Replays`, `RelayedData`, `PublishCalls`, `SubscriberFlags`, `PublishManagers`, `Sorting`): the
  cache of a publisher, its replays, what a subscriber accepts of them and of relayed data, and the maps of the publish manager
  over all sequences of calls.
- **End to end** (`EndToEnd`, `EndToEndLimits`, `EndToEndExamples`): the directory, its publisher thread, lagging streams and a
  subscription manager together, and exactly when a second subscriber, a closed filter or mismatched data spoil the result.
- **Liveness** (`Times`, `Liveness`, `LivenessCommands`, `LivenessUpdates`, `LivenessDeadlines`, `LivenessExamples`,
  `UdpReceivers`): which other domains are connected, what the directory is told of them, and when the receiver wakes up.
- **Requests** (`Requests`, `Answers`, `RequestExamples`, `RequestManagers`), **archive** (`Archives`, `Playback`,
  `ArchiveFiles`) and **key/value store** (`KeyValues`, `KeyValueLists`, `KeyValueTables`).

Where the program changes state step by step there is a class or a method with loops, proved against the functions that the
lemmas are about.

Some of the code's behaviour contradicts what one would expect of it. For each of these a lemma gives the exact condition, in
terms of the state before, and another one a run from the start that meets it:

- A data registration that purges another product from its URL erases the time it has just recorded
  (`DirectoryTimes.PurgeForgetsTheTime`, `DirectoryExamples.SharedUrlForgetsTheTime`).
- Changes to products of other domains during start-up are never sent
  (`DirectoryStreams.ForeignUpdatesAtStart`, `DirectoryExamples.EarlyForeignerIsNotSent`).
- A publisher that leaves while its directory restarts stays listed by the directories that follow it
  (`Restarts.RestartKeepsTheWithdrawn`, `RestartExamples.WithdrawnPublisherStays`).
- The Remove command is there to clear all data of a domain, but clears only what registered in the very second in which the
  directory of that domain did (`Removals.RemoveClearsExactly`, `Removals.RemovedDomainStays`).
- The same command unregisters data products as services when the last change was to a service, and can take the time of a
  publisher that stays listed (`Removals.ServiceRemovalForgetsExactly`, `RemovalExamples.SharedIdForgetsTheTime`).
- A service that is registered at a new URL before it is unregistered at the old one stays with the directories that have
  followed since (`ServiceReplication.WithdrawalReachesExactly`, `ServiceReplication.MovedServiceStays`).
- After a restart of the directory relays are no longer known as relays (`RelayRecovery.RelaysAreForgottenExactly`,
  `RelayRecovery.RelayIsForgotten`).
- A socket queued twice for deletion leaves a connection without a socket behind (`SubscriptionLaws.QueuedTwice`,
  `SubscriptionExamples.ClosedTwice`).
- A second subscriber with an outdated lookup answer adds dead connections (`EndToEndLimits.SecondSubscriberExactly`,
  `EndToEndExamples.SecondSubscriberConnectsToNobody`), and closing one of two filters of a product can leave the other one on
  an outdated list (`EndToEndLimits.ClosingExactly`, `EndToEndExamples.ClosingLosesAnUpdate`).
- A subscriber that moves from a source to its relay is given everything once only if the relay begins with the next publication
  or with the last one that was read (`RelayedData.RelayTakesOverExactly`).
- Two cached values with the same timestamp make old data count as new (`Replays.ReplayIsHarmlessExactly`,
  `Replays.TiesAreDeliveredAgain`).
- Unregistering a data product that was published, or asked about, while it was not registered follows a null pointer
  (`PublishCalls.UnregisterCrashesExactly`, `PublishCalls.FailedRegistrationCrashes`).
- The receiver of broadcasts blocks for good when the last domain in alphabetical order is overdue, whatever the others are
  (`LivenessCommands.BlocksForGoodExactly`, `LivenessExamples.BlocksThoughABroadcastIsDue`); and the difference of two times can
  be up to a second too long (`Times.SubtractIsABound`).
- The scan for expired requests hangs unless these are the first in the poll vector (`Requests.HangsExactly`,
  `RequestExamples.SecondExpiresFirst`), and the poll timeout follows the first request that can time out instead of the
  earliest one (`Requests.WakesInTimeExactly`, `RequestExamples.SecondIsOverslept`).
- Archives from a machine of the other byte order are readable only if no length has a low byte of 128 or more
  (`Archives.RoundTripExactly`, `Archives.LongRecordIsLost`); playing back another one can end the program
  (`Playback.PlaybackCrashesExactly`, `Playback.LongRecordCrashes`).

`dafny verify dfyconfig.toml` checks everything.

## Model

| member | source | states |
|---|---|---|
| `DirectoryRuns.StepLists` | src/components/cpp/ServiceDirectory/ServiceDirectory.cpp:672-980 | after any request every publisher list is exactly what the request asks for: unchanged, one publisher placed, updated in place or withdrawn, and a re-used URL dropped from every other own product |
| `DirectoryRuns.StepKeepsUrlsOnce` | src/components/cpp/ServiceDirectory/ServiceDirectory.cpp:713-759 | no request lets a list name a URL twice or two own products share one |
| `DirectoryRuns.UrlsListedOnce` | src/components/cpp/ServiceDirectory/ServiceDirectory.cpp:672-980 | in every reachable state lists have distinct URLs and each URL is listed by at most one own product, whatever registrations, unregistrations and purges interleave |
| `DirectoryRuns.PurgeLists` | src/components/cpp/ServiceDirectory/ServiceDirectory.cpp:932-980 | a purge drops the URL from every other own product and touches nothing else |
| `DirectoryStreams.HandleTells` | src/components/cpp/ServiceDirectory/ServiceDirectory.cpp:737-756 | every change of a list is either sent or kept in the backlog, and nothing sent or kept is taken back |
| `DirectoryStreams.FlushSends` | src/components/cpp/ServiceDirectory/ServiceDirectory.cpp:370-384 | the end of start-up sends the current list of every backlogged own product, once |
| `DirectoryStreams.RunsAreIdle` | src/components/cpp/ServiceDirectory/ServiceDirectory.cpp:366-384 | between requests the flags, the backlog and the stream fit together in every run |
| `DirectoryStreams.UpdatesMatchLookups` | src/components/cpp/ServiceDirectory/ServiceDirectory.cpp:850-867 | once RegisteredPublishers is registered, the last update sent for each own product is what a lookup answers, after purges and start-up too |
| `DirectoryStreams.ForeignUpdatesKeepUp` | src/components/cpp/ServiceDirectory/ServiceDirectory.cpp:747-756 | after start-up a product of another domain stays in step, or gets in step with its next change |
| `DirectoryStreams.ForeignUpdatesAtStart` | src/components/cpp/ServiceDirectory/ServiceDirectory.cpp:375-380 | at the end of start-up a foreign product is in step if and only if it had no publishers before |
| `DirectoryExamples.EarlyForeignerIsNotSent` | src/components/cpp/ServiceDirectory/ServiceDirectory.cpp:375-380 | a run of two registrations in which it is not |
| `DirectoryTimes.StepKeepsTimed` | src/components/cpp/ServiceDirectory/ServiceDirectory.cpp:683-745 | with every URL used by one product or service, each request keeps list seconds and recorded times equal, and changes recorded times exactly as it should |
| `DirectoryTimes.PublishersHaveTheirTime` | src/components/cpp/ServiceDirectory/ServiceDirectory.cpp:713-735 | in every such run each listed publisher has a recorded time in the second of its registration |
| `DirectoryTimes.TimesNeverGoBack` | src/components/cpp/ServiceDirectory/ServiceDirectory.cpp:692-705 | between unregistrations the recorded time of a URL never decreases |
| `DirectoryTimes.OnlyItsOwnSecondUnregisters` | src/components/cpp/ServiceDirectory/ServiceDirectory.cpp:837-880 | an unregistration removes a publisher if and only if it names the second of the recorded registration; otherwise no list changes |
| `DirectoryTimes.PurgeForgetsTheTime` | src/components/cpp/ServiceDirectory/ServiceDirectory.cpp:721-759 | without that discipline the time just recorded survives if and only if nobody else is purged from the URL or nothing had to be recorded |
| `DirectoryExamples.SharedUrlForgetsTheTime` | src/components/cpp/ServiceDirectory/ServiceDirectory.cpp:721-759 | a run of two registrations at one URL in which the time is lost |
| `ServiceLookups.ServiceLookupsAnswerTheLast` | src/components/cpp/ServiceDirectory/ServiceDirectory.cpp:593-619 | in every run a service lookup answers the URL of the last accepted registration of the service that no accepted unregistration of it has followed, and none if there is none; no domain or an empty one means the own one |
| `ServiceTimes.ServiceLookupsTellTheTime` | src/components/cpp/ServiceDirectory/ServiceDirectory.cpp:611-614 | when every URL has one owner, it also answers the second of that registration |
| `ServiceTimes.ServiceLookupsFollowTheRequests` | src/components/cpp/ServiceDirectory/ServiceDirectory.cpp:560-930 | which requests are accepted, and so the whole answer, follows from the requests that name the service: a registration must not be older than the last one at its URL, and an unregistration must name the second of the last one at its URL |
| `PublisherHistories.DataLookupsFollowTheRequests` | src/components/cpp/ServiceDirectory/ServiceDirectory.cpp:560-930 | a data lookup answers one publisher for each URL that stands for the product by the requests about that URL, with exactly the fields these have left |
| `PublisherHistories.ComponentsFollowTheRequests` | src/components/cpp/ServiceDirectory/ServiceDirectory.cpp:720-795 | the component that broadcasts name for a publisher is that of its last registration that was not a repetition |
| `DirectoryHoldings.StepHoldings` | src/components/cpp/ServiceDirectory/ServiceDirectory.cpp:672-930 | a request that is not stale changes the URLs and times held for every key exactly by its own effect; a stale one changes nothing |
| `DirectoryBroadcast.PublishPictures` | src/components/cpp/ServiceDirectory/ServiceDirectory.cpp:622-670 | a broadcast shows for every own product exactly the publishers and times the tables hold |
| `DirectoryBroadcast.StepFollows` | src/components/cpp/ServiceDirectory/ServiceDirectory.cpp:622-670 | every change of the own domain is broadcast at once, and the broadcast change has the same effect as the request |
| `ServicePictures.StepShows` | src/components/cpp/ServiceDirectory/ServiceDirectory.cpp:622-670 | a broadcast shows for every own service exactly the provider and time the tables hold, and names the component known for each URL |
| `ServicePictures.StreamShowsPosts` | src/components/cpp/ServiceDirectory/ServiceDirectory.cpp:622-670 | when every service keeps to one URL, the change in each broadcast leads from the provider in the one before to its own |
| `DirectoryServer.ServiceDirectory.constructor` | src/components/cpp/ServiceDirectory/ServiceDirectory.cpp:164-181 | a fresh directory is empty and not ready |
| `DirectoryServer.ServiceDirectory.AnnouncePublishers` | src/components/cpp/ServiceDirectory/ServiceDirectory.cpp:747-756 | an update with the current list is appended, or the id is noted before start-up is over |
| `DirectoryServer.ServiceDirectory.UpdateProductLocations` | src/components/cpp/ServiceDirectory/ServiceDirectory.cpp:622-670 | appends the picture of the whole domain with the change, reading missing times as zero |
| `DirectoryServer.ServiceDirectory.PurgeObsoletePublishers` | src/components/cpp/ServiceDirectory/ServiceDirectory.cpp:932-980 | does to the tables and streams what a purge specifies, product by product |
| `DirectoryServer.ServiceDirectory.Register` | src/components/cpp/ServiceDirectory/ServiceDirectory.cpp:672-826 | stale, duplicate, data and service registrations change the state as specified |
| `DirectoryServer.ServiceDirectory.Unregister` | src/components/cpp/ServiceDirectory/ServiceDirectory.cpp:828-930 | removes the matching publisher or provider, announces it, forgets its time, and reports what it did not find |
| `DirectoryServer.ServiceDirectory.LookUp` | src/components/cpp/ServiceDirectory/ServiceDirectory.cpp:560-620 | answers as `ServiceLookups`, `ServiceTimes` and `PublisherHistories` say of every run, from the requested or the own domain, and may record a zero time |
| `DirectoryServer.ServiceDirectory.FlushBacklog` | src/components/cpp/ServiceDirectory/ServiceDirectory.cpp:370-384 | sends the backlog once when the directory has become ready |
| `DirectoryServer.ServiceDirectory.Serve` | src/components/cpp/ServiceDirectory/ServiceDirectory.cpp:358-388 | one turn of the main loop is one specified step, with the specified reply |
| `Replication.MessagesAreReplayed` | src/components/cpp/ServiceDirectory/ServiceDirectorySynchronizer.cpp:432-501 | the first message registers every row it shows, services first, and a later one makes its one change, each with the URL, time and component it names |
| `Replication.RowsReplayed` | src/components/cpp/ServiceDirectory/ServiceDirectorySynchronizer.cpp:432-466 | registering the rows of a snapshot one by one reproduces the holdings it shows |
| `Replication.EffectSettles` | src/components/cpp/ServiceDirectory/ServiceDirectorySynchronizer.cpp:467-501 | a change delivered twice has the effect of one |
| `Replication.StreamStaysGood` | src/components/cpp/ServiceDirectory/ServiceDirectory.cpp:622-670 | each message is a picture, and its change leads from the picture before to it |
| `Replication.NextKeepsStep` | src/components/cpp/ServiceDirectory/ServiceDirectorySynchronizer.cpp:419-528 | no action of source, replica, channel or queue loses the thread: serving the queue would lead to the last message delivered |
| `Replication.ReplicaCatchesUp` | src/components/cpp/ServiceDirectory/ServiceDirectorySynchronizer.cpp:419-528 | with every message delivered and the queue served, the replica lists for each product of the source's domain the same URLs and seconds in the same order as the source |
| `ServiceReplication.NextPairs` | src/components/cpp/ServiceDirectory/ServiceDirectorySynchronizer.cpp:419-528 | with services that keep to one URL, no action of a link loses the thread: serving the queue would lead to the provider in the last picture delivered |
| `ServiceReplication.ServicesCatchUp` | src/components/cpp/ServiceDirectory/ServiceDirectorySynchronizer.cpp:419-528 | with every message delivered and the queue served, a lookup of a service at the replica is answered with the URL and second that its own directory answers, or both answer none |
| `ServiceReplication.WithdrawalReachesExactly` | src/components/cpp/ServiceDirectory/ServiceDirectorySynchronizer.cpp:467-501 | a withdrawal at the source takes the service from the replica if and only if that one has a time of the named second for the named URL |
| `ServiceReplication.MovedServiceStays` | src/components/cpp/ServiceDirectory/ServiceDirectorySynchronizer.cpp:467-501 | a run of three requests after which a service that has moved and was unregistered at its old URL is still answered elsewhere |
| `RemoteTables.StepTable` | src/components/cpp/ServiceDirectory/ServiceDirectory.cpp:672-930 | on the map from URLs to times a request about a product has one simple effect, stale registrations and missed unregistrations included |
| `RemoteTables.RowsServed` | src/components/cpp/ServiceDirectory/ServiceDirectorySynchronizer.cpp:432-466 | registering the rows of a picture shows the picture over what was there before, except where that is later |
| `RemoteTables.ChangeServed` | src/components/cpp/ServiceDirectory/ServiceDirectorySynchronizer.cpp:467-501 | a change has the same effect on a picture with something left over as on the two apart |
| `Leaving.RemovalServed` | src/components/cpp/ServiceDirectory/ServiceDirectorySynchronizer.cpp:256-281 | on the map from URLs to times the unregistrations of Remove leave exactly the entries of other URLs or other seconds, and all entries if they name services |
| `Leaving.SafeStep` | src/components/cpp/ServiceDirectory/ServiceDirectory.cpp:828-930 | an unregistration that speaks of something nobody registers has no effect on any product, so whatever Remove sends acts on the map as stated |
| `Restarts.MovedKeepsTended` | src/components/cpp/ServiceDirectory/ServiceDirectorySynchronizer.cpp:155-230 | no move of a link loses the thread, be it a restart, a new start of the synchronizer, the cached picture as the first one again, or the unregistrations of Remove: serving the queue would lead to the last picture delivered, under the remnant of earlier ones |
| `Restarts.RemnantStays` | src/components/cpp/ServiceDirectory/ServiceDirectorySynchronizer.cpp:155-501 | with everything delivered and served the replica lists what the source lists and the remnant of the pictures before the source was lost or left; it agrees with the source if and only if nothing remains |
| `Restarts.OnlyTheRemnantStays` | src/components/cpp/ServiceDirectory/ServiceDirectorySynchronizer.cpp:155-290 | while no picture has come since the source was lost or left, the replica lists the remnant and nothing else once its queue is served |
| `Restarts.RestartKeepsTheWithdrawn` | src/components/cpp/ServiceDirectory/ServiceDirectorySynchronizer.cpp:155-230 | after one restart and one new picture they agree if and only if the new picture renews every URL the last one before showed |
| `RestartExamples.WithdrawnPublisherStays` | src/components/cpp/ServiceDirectory/ServiceDirectorySynchronizer.cpp:155-230 | a run in which a publisher leaves during a restart and stays listed at the replica with everything delivered and served |
| `Synchronizing.TurnSimulated` | src/components/cpp/ServiceDirectory/ServiceDirectorySynchronizer.cpp:80-528 | each turn of a synchronizer that follows many domains is one move, or none, of each domain's link: Add and the lookup's answer are none, Update starts that domain over, Remove leaves it, a picture from another publisher is missed, and a cached picture counts as the first one or as its change |
| `Synchronizing.FollowersCatchUp` | src/components/cpp/ServiceDirectory/ServiceDirectorySynchronizer.cpp:80-528 | with any number of domains followed, restarted, followed anew, removed and added again: once the pictures of one have arrived and the requests about it are served, the own directory lists for it what its directory lists and the remnant, whatever happens to the others |
| `Synchronizing.RemovedDomainsLeaveTheirRemnant` | src/components/cpp/ServiceDirectory/ServiceDirectorySynchronizer.cpp:155-290 | in the same runs: a domain that is removed, or unread since it was lost, is listed with its remnant and nothing else once the requests about it are served |
| `Synchronizing.UntroubledDomainsAgree` | src/components/cpp/ServiceDirectory/ServiceDirectorySynchronizer.cpp:80-528 | a domain that is neither restarted nor followed anew nor removed is then listed exactly as its directory lists it |
| `SynchronizingRuns.TheLastPictureIsRemembered` | src/components/cpp/ServiceDirectory/ServiceDirectorySynchronizer.cpp:419-466 | in every run the rows and the kind that Remove would use are those of the last picture heard |
| `SynchronizingRuns.EveryRunCanCatchUp` | src/components/cpp/ServiceDirectory/ServiceDirectorySynchronizer.cpp:80-528 | every run can go on, without any directory followed doing anything, so that a domain that has broadcast anything is caught up with |
| `Removals.RowsRemoved` | src/components/cpp/ServiceDirectory/ServiceDirectorySynchronizer.cpp:256-281 | serving the requests of Remove takes out exactly the publishers of the picture that registered in the directory's own second, and nothing if the last change was to a service |
| `Removals.RemoveClearsExactly` | src/components/cpp/ServiceDirectory/ServiceDirectorySynchronizer.cpp:231-290 | so Remove clears a product if and only if the last change was to a data product and every publisher registered in that second |
| `Removals.RemovedDomainStays` | src/components/cpp/ServiceDirectory/ServiceDirectorySynchronizer.cpp:231-290 | a run in which a publisher of another second stays listed after Remove |
| `Removals.ServiceRemovalForgetsExactly` | src/components/cpp/ServiceDirectory/ServiceDirectory.cpp:880-907 | a data product unregistered as a service stays listed, and its time is lost if and only if a service with its ID is registered and the time is of the second named |
| `RemovalExamples.SharedIdForgetsTheTime` | src/components/cpp/ServiceDirectory/ServiceDirectorySynchronizer.cpp:256-281 | a data product and a service with the same ID, removed after a change to the service: the publisher stays listed and its time is lost |
| `Synchronizers.Synchronizer.ReceiveUpdate` | src/components/cpp/ServiceDirectory/ServiceDirectorySynchronizer.cpp:333-501 | makes the turn of an arriving picture: from another publisher ignored, the first one queued whole, a later one as its change |
| `Synchronizers.Synchronizer.RemoveDomain` | src/components/cpp/ServiceDirectory/ServiceDirectorySynchronizer.cpp:231-290 | queues the unregistration of every row of the last picture and forgets the domain |
| `Synchronizers.Synchronizer.SendNext` | src/components/cpp/ServiceDirectory/ServiceDirectorySynchronizer.cpp:512-527 | with no answer outstanding the oldest request is sent, and none is lost or overtaken |
| `Recovery.HeldIsKnown` | src/api/cpp/GravityNode.cpp:1389-1641 | what the directory lists is published by some node, at that URL since that second |
| `Recovery.KnownIsHeld` | src/api/cpp/GravityNode.cpp:1389-1641 | what a node publishes the directory lists |
| `Recovery.PublishAgrees` | src/api/cpp/GravityNode.cpp:1389-1562 | registering a product keeps the directory and the nodes in agreement |
| `Recovery.WithdrawAgrees` | src/api/cpp/GravityNode.cpp:1564-1641 | unregistering a product keeps them in agreement |
| `Recovery.DirectoryHoldsWhatNodesPublish` | src/api/cpp/GravityNode.cpp:1389-1641 | in every run the (product, URL, second) relation of the directory is the union of the nodes' maps |
| `Recovery.RestartRebuildsTheDirectory` | src/api/cpp/GravityNode.cpp:1914-1959 | a fresh directory fed by every node's re-registrations, in any order and repeated at will, holds the relation of the old one |
| `RelayRecovery.RelaysAreForgottenExactly` | src/api/cpp/GravityNode.cpp:1914-1959 | after a restart and complete re-registrations every node is told to connect to the same URLs as before if and only if no publisher was a relay |
| `RelayRecovery.RelayIsForgotten` | src/api/cpp/GravityNode.cpp:1914-1959 | a run with one relay whose own node is told to listen to it after the restart |
| `GravityNodes.GravityNode.RegisterDataProduct` | src/api/cpp/GravityNode.cpp:1389-1562 | changes the node's maps and the directory together, or neither, with the code for each refusal: only the directory may register its four products, and only nodes themselves their three, so no other component ends the directory's start-up |
| `GravityNodes.GravityNode.UnregisterDataProduct` | src/api/cpp/GravityNode.cpp:1564-1641 | undoes a registration in the maps and at the directory, or reports that there is none |
| `GravityNodes.GravityNode.Reregister` | src/api/cpp/GravityNode.cpp:1914-1959 | sends the registration of every published product, some of them more than once when replies are slow |
| `GravityNodes.ReregistrationsAreComplete` | src/api/cpp/GravityNode.cpp:1914-1959 | what a node re-sends covers all its products and nothing else |
| `Relays.TrimPublishers` | src/api/cpp/GravitySubscriptionManager.cpp:1166-1227 | the loop computes: all sources for a relay; else the first local relay, else the last global one, else all sources |
| `Relays.AmRelay` | src/api/cpp/GravitySubscriptionManager.cpp:1169-1177 | finds out whether the own component relays the product |
| `Relays.OneRelayOrAllSources` | src/api/cpp/GravitySubscriptionManager.cpp:1166-1227 | a node connects to exactly one relay that serves it, local before global, or else to exactly all sources |
| `Relays.NoRouteHasTwoRelays` | src/api/cpp/GravitySubscriptionManager.cpp:1166-1227 | when all nodes trim one list, no data passes two relays, so relays cannot feed each other |
| `Relays.EverySourceReachesEveryNode` | src/api/cpp/GravitySubscriptionManager.cpp:1166-1227 | and every source still reaches every node |
| `Subscriptions.ConnectKeeps` | src/api/cpp/GravitySubscriptionManager.cpp:423-465 | a new connection keeps the five tables mutually inverse, but for the socket it replaces |
| `Subscriptions.DeleteKeeps` | src/api/cpp/GravitySubscriptionManager.cpp:496-530 | closing a queued socket removes it from all tables and keeps them mutually inverse |
| `Subscriptions.NullIsHarmless` | src/api/cpp/GravitySubscriptionManager.cpp:427-438 | deleting the null socket that a new URL queues changes nothing but a zero in the verification map |
| `Reconciliation.DeleteAllSpares` | src/api/cpp/GravitySubscriptionManager.cpp:496-561 | closing everything queued leaves the tables consistent and every other connection, time and cached value as it was |
| `Refreshing.RefreshAllUpdates` | src/api/cpp/GravitySubscriptionManager.cpp:423-465 | after the publisher loop every listed URL has a live socket with the listed time; old sockets stay where the time has not changed |
| `Updating.DropGoneDooms` | src/api/cpp/GravitySubscriptionManager.cpp:467-489 | exactly the sockets of URLs no longer listed are added to those that are to be closed |
| `Updating.UpdatesReachTheList` | src/api/cpp/GravitySubscriptionManager.cpp:385-561 | incremental equals from scratch: every filter of the product ends with exactly the listed URLs and times; unchanged ones keep socket and cached value, all others are fresh; other products are untouched |
| `Watching.FreshIsReconciled` | src/api/cpp/GravitySubscriptionManager.cpp:771-794 | a fresh subscription connects to what reconciling would connect it to, if no URL is listed twice |
| `Watching.UpdateEqualsFreshSubscribe` | src/api/cpp/GravitySubscriptionManager.cpp:385-561 | after any history an update leaves a subscription with the connections of a fresh one |
| `Watching.NextFollows` | src/api/cpp/GravitySubscriptionManager.cpp:260-933 | one pass over the five tables does to the map of expected publishers what its event asks for |
| `Watching.RunsFollow` | src/api/cpp/GravitySubscriptionManager.cpp:141-933 | in every run the five tables are mutually inverse and amount to what the events ask for, socket names aside |
| `Watching.EveryRunExists` | src/api/cpp/GravitySubscriptionManager.cpp:141-561 | no event is refused, so the statement about runs covers every sequence of events |
| `Watching.RunsAreAttended` | src/api/cpp/GravitySubscriptionManager.cpp:845-933 | a subscription lives exactly as long as it has subscribers |
| `Watching.ReadFindsMismatch` | src/api/cpp/GravitySubscriptionManager.cpp:278-305 | reading stops with a mismatch if and only if some product carries another registration time |
| `Remembering.DataIsTaken` | src/api/cpp/GravitySubscriptionManager.cpp:269-338 | what a socket delivers is decided by the last values of the connections, the flag of the subscription and the expected time |
| `Remembering.NextRemembers` | src/api/cpp/GravitySubscriptionManager.cpp:141-561 | one pass over the tables does to the last values and flags what its event asks for: lists keep the values of publishers they name as before, and a mismatch or a lost connection drops them |
| `Remembering.RunsRemember` | src/api/cpp/GravitySubscriptionManager.cpp:141-561 | in every run the tables amount to these last values and flags |
| `LateSubscribers.RunsHandOn` | src/api/cpp/GravitySubscriptionManager.cpp:269-338 | in every run what any connection hands on is decided by the events before it |
| `LateSubscribers.LateSubscriberIsGivenTheLast` | src/api/cpp/GravitySubscriptionManager.cpp:815-832 | in every run a later subscriber that wants cached values is given the last product taken from a publisher, as long as nothing new has come and the lists have named it as before |
| `LateSubscribers.FlagIsTheOpeners` | src/api/cpp/GravitySubscriptionManager.cpp:747-770 | in every run the flag for cached values is the one of the subscriber that opened the subscription |
| `SubscriptionRuns.NextKeepsConsistent` | src/api/cpp/GravitySubscriptionManager.cpp:260-933 | every event keeps all five tables and the poll vector consistent |
| `SubscriptionLaws.UnsubscribeUndoesSubscribe` | src/api/cpp/GravitySubscriptionManager.cpp:690-933 | a first subscriber that leaves again restores every table |
| `SubscriptionLaws.QueuedTwice` | src/api/cpp/GravitySubscriptionManager.cpp:496-530 | a socket closed twice leaves the tables consistent if and only if another socket was connected to a publisher without URL; otherwise a connection without a socket stays |
| `SubscriptionExamples.ClosedTwice` | src/api/cpp/GravitySubscriptionManager.cpp:496-530 | a run of one subscription to one publisher in which it stays |
| `SubscriptionManagers.SubscriptionManager.SetupSubscription` | src/api/cpp/GravitySubscriptionManager.cpp:637-665 | a fresh socket joins the poll vector |
| `SubscriptionManagers.SubscriptionManager.RemovePollItem` | src/api/cpp/GravitySubscriptionManager.cpp:667-682 | every occurrence of a socket leaves the poll vector |
| `SubscriptionManagers.SubscriptionManager.AddSubscription` | src/api/cpp/GravitySubscriptionManager.cpp:690-843 | finds or makes the subscription, joins what is new, and gives a new subscriber that wants them the last values of all its connections, each as often as connections have it, in the order of time |
| `SubscriptionManagers.SubscriptionManager.RemoveSubscription` | src/api/cpp/GravitySubscriptionManager.cpp:845-933 | the last subscriber takes all sockets of the subscription out of every table |
| `SubscriptionManagers.SubscriptionManager.RefreshPublisher` | src/api/cpp/GravitySubscriptionManager.cpp:423-465 | keeps, replaces or makes one connection, with its null lookup |
| `SubscriptionManagers.SubscriptionManager.Close` | src/api/cpp/GravitySubscriptionManager.cpp:496-530 | one entry of the deletion list, with the placeholder a repeated one leaves |
| `SubscriptionManagers.SubscriptionManager.PublisherUpdate` | src/api/cpp/GravitySubscriptionManager.cpp:385-561 | a publisher list is reconciled with all filters and the queued sockets are closed |
| `SubscriptionManagers.SubscriptionManager.ReceiveData` | src/api/cpp/GravitySubscriptionManager.cpp:269-358 | delivers what `Remembering` says is taken, remembers it, and on a mismatch closes the socket and reports the stale publisher |
| `SubscriptionManagers.SubscriptionManager.Process` | src/api/cpp/GravitySubscriptionManager.cpp:141-561 | whatever event arrives, the class changes its tables as specified and keeps them consistent; a new subscriber is given the last values, data is handed on as the memory of the subscriptions decides, and nothing else is |
| `Sorting.SortOrders` | src/api/cpp/GravityPublishManager.cpp:277-278 | sorting orders by time |
| `Sorting.SortIsStable` | src/api/cpp/GravityPublishManager.cpp:277-278 | and keeps the order of equal times |
| `Publishing.CacheIsLatest` | src/api/cpp/GravityPublishManager.cpp:509-550 | the cache holds the latest message of each filter text |
| `Publishing.ReplayIsLatest` | src/api/cpp/GravityPublishManager.cpp:268-297 | with increasing times a replay is the list of latest messages, oldest first |
| `Replays.NewSubscriberIsComplete` | src/api/cpp/GravitySubscriptionManager.cpp:278-358 | a new subscriber that wants cached values accepts exactly the latest matching product of each filter text in the order of time; one that does not is caught up all the same |
| `Replays.ReplayIsHarmless` | src/api/cpp/GravitySubscriptionManager.cpp:332-357 | a caught-up subscriber accepts nothing of a replay |
| `Replays.DeliversEverythingOnce` | src/api/cpp/GravitySubscriptionManager.cpp:278-358 | from its connection on a subscriber is given the latest values if wanted and then every matching message once and in order, however often others cause replays |
| `Replays.ReplayIsHarmlessExactly` | src/api/cpp/GravitySubscriptionManager.cpp:332-357 | in general a replay is not accepted if and only if no matching cached value is newer than the last accepted one |
| `Replays.TiesAreDeliveredAgain` | src/api/cpp/GravitySubscriptionManager.cpp:332-357 | two values of the same time make a replay deliver again |
| `RelayedData.FirstRelayedExactly` | src/api/cpp/GravitySubscriptionManager.cpp:306-338 | the first relayed product on a socket is accepted if and only if no socket has it as its last value, by timestamp, component, product and data |
| `RelayedData.RelayedFromTheFirstUnseen` | src/api/cpp/GravitySubscriptionManager.cpp:306-338 | of a rising stream of relayed products a new socket is given all from the first unseen one on |
| `RelayedData.MarksAreIgnored` | src/api/cpp/GravitySubscriptionManager.cpp:306-338 | once a socket has a value it makes no difference whether products were relayed |
| `RelayedData.RelayTakesOverExactly` | src/api/cpp/GravitySubscriptionManager.cpp:303-338 | a subscriber that moves from a source to its relay is given every publication exactly once and in order if and only if the relay begins with the next one or with the last one read |
| `PublishManagers.PublishManager.RegisterDataProduct` | src/api/cpp/GravityPublishManager.cpp:344-440 | a bound socket is tracked by id and by socket |
| `PublishManagers.PublishManager.UnregisterDataProduct` | src/api/cpp/GravityPublishManager.cpp:442-484 | the details of the id leave both maps and the poll vector, and their cache is emptied; an entry without details ends the program |
| `PublishManagers.PublishManager.SubscribersExist` | src/api/cpp/GravityPublishManager.cpp:585-600 | answers, for a registered id, the last notice about subscribers as `SubscriberFlags` says of every run; an unknown id leaves an empty entry |
| `PublishManagers.PublishManager.Publish` | src/api/cpp/GravityPublishManager.cpp:509-567 | the message goes out on the socket of its id and into its cache if it caches; an unknown id leaves an empty entry |
| `PublishManagers.PublishManager.Subscription` | src/api/cpp/GravityPublishManager.cpp:250-306 | a new subscriber makes the socket send its whole cache again |
| `PublishManagers.ReplayCache` | src/api/cpp/GravityPublishManager.cpp:268-297 | flagged copies of the cache, oldest first |
| `PublishCalls.RunsFit` | src/api/cpp/GravityPublishManager.cpp:344-600 | after any sequence of calls that did not end the program the two maps and the poll vector agree |
| `PublishCalls.UnregisterCrashesExactly` | src/api/cpp/GravityPublishManager.cpp:442-484 | after any such sequence unregistering an id ends the program if and only if the id was looked up, by a publication or a question about its subscribers, while it was not registered, and has been neither registered nor unregistered since |
| `PublishCalls.NothingElseCrashes` | src/api/cpp/GravityPublishManager.cpp:344-600 | no other call ends the program |
| `PublishCalls.FailedRegistrationCrashes` | src/api/cpp/GravityNode.cpp:1544-1551 | a publication, a failed registration and the clean-up after it are enough |
| `PublishCalls.CachesAreSeparate` | src/api/cpp/GravityPublishManager.cpp:344-567 | after any history, while an id stays registered its cache is what its own publications make of it, whatever happens to other ids |
| `PublishCalls.UnregisterUndoesRegister` | src/api/cpp/GravityPublishManager.cpp:344-484 | after any history, unregistering a newly registered id restores both maps and the poll vector |
| `SubscriberFlags.AnswersTheLastNotice` | src/api/cpp/GravityPublishManager.cpp:255-300 | in every run the answer is that of the last notice on the socket of the id since it was registered, and that the id is unknown exactly when every registration of it has been undone |
| `EndToEnd.NextKeeps` | src/api/cpp/GravityNode.cpp:1726-1803 | no action between directory and subscription loses track of the last list sent |
| `EndToEnd.SubscriptionsReachTheirPublishers` | src/api/cpp/GravityNode.cpp:1726-1803 | end to end: once everything sent is consumed, the subscription is connected to exactly the trimmed list a lookup would return, for every interleaving |
| `EndToEnd.SocketsReachTheirPublishers` | src/api/cpp/GravitySubscriptionManager.cpp:385-561 | and so are the sockets in the five tables |
| `EndToEndLimits.SecondSubscriberExactly` | src/api/cpp/GravitySubscriptionManager.cpp:771-794 | a second subscriber leaves the subscription, when everything sent is read, with the last list sent if and only if an update is still to be read or its lookup answer lists no URL that is not connected |
| `EndToEndLimits.ClosingExactly` | src/api/cpp/GravitySubscriptionManager.cpp:894-930 | closing another filter does so if and only if an update is left on some other channel or the last one sent was the last one read |
| `EndToEndLimits.MismatchExactly` | src/api/cpp/GravitySubscriptionManager.cpp:278-305 | the subscription's own data do so if and only if they carry the expected registration time or an update is still to be read |
| `EndToEndExamples.SecondSubscriberConnectsToNobody` | src/api/cpp/GravitySubscriptionManager.cpp:771-794 | a run in which a second subscriber connects to a publisher the directory no longer lists, and nothing is under way |
| `EndToEndExamples.ClosingLosesAnUpdate` | src/api/cpp/GravitySubscriptionManager.cpp:894-930 | a run in which closing a filter leaves the other one without the second of two publishers, and nothing is under way |
| `Times.CompareIsOrder` | src/api/cpp/CommUtil.cpp:201-226 | comparison is the order of the microseconds |
| `Times.SubtractIsABound` | src/api/cpp/CommUtil.cpp:228-248 | a difference is never too short, at most a second too long, and right if and only if nothing is borrowed |
| `Times.SubtractIsZero` | src/api/cpp/CommUtil.cpp:228-248 | it is zero if and only if the time is over |
| `Liveness.RunsFit` | src/components/cpp/ServiceDirectory/ServiceDirectoryUDPReceiver.cpp:175-283 | counts, rates and deadlines always have the same domains, counts are one to three, and only these domains are connected |
| `Liveness.ExcessIsLargest` | src/components/cpp/ServiceDirectory/ServiceDirectoryUDPReceiver.cpp:183-261 | the counter's deficit is the largest lead of misses over hits in any recent stretch |
| `Liveness.CountersTellThePhase` | src/components/cpp/ServiceDirectory/ServiceDirectoryUDPReceiver.cpp:175-255 | a domain is removed exactly when over some stretch since it was connected misses exceed hits by three, and its counter is three less the largest such lead |
| `LivenessCommands.CommandsAreSentences` | src/components/cpp/ServiceDirectory/ServiceDirectoryUDPReceiver.cpp:186-247 | the commands of each domain are a prefix of (Add Update* Remove)*, open exactly while it is connected |
| `LivenessCommands.PrefixTalks` | src/components/cpp/ServiceDirectory/ServiceDirectoryUDPReceiver.cpp:186-247 | and every prefix of them has that shape |
| `LivenessCommands.DirectoryKnowsTheConnected` | src/components/cpp/ServiceDirectory/ServiceDirectory.cpp:396-441 | with the commands consumed, the directory's domain map has exactly the connected domains |
| `LivenessUpdates.EveryRestartIsTold` | src/components/cpp/ServiceDirectory/ServiceDirectoryUDPReceiver.cpp:186-219 | in every run the commands about a domain since it was connected are one addition and then one update for each change of start time among the broadcasts heard at full count, each with the URL of that broadcast |
| `LivenessUpdates.DirectoryKnowsTheNewest` | src/components/cpp/ServiceDirectory/ServiceDirectoryUDPReceiver.cpp:186-219 | so the directory knows a connected domain under the URL of the broadcast that brought its start time |
| `LivenessDeadlines.RoundsMarkTheDomains` | src/components/cpp/ServiceDirectory/ServiceDirectoryUDPReceiver.cpp:175-255 | in every run a round counts the broadcast it brings, and a miss for a domain exactly when its deadline has passed |
| `LivenessDeadlines.DeadlinesCountTheMisses` | src/components/cpp/ServiceDirectory/ServiceDirectoryUDPReceiver.cpp:219-255 | in every run a domain is due one announced rate after its last broadcast, and later by the rate of its first one for each miss since |
| `LivenessCommands.WakesInTime` | src/components/cpp/ServiceDirectory/ServiceDirectoryUDPReceiver.cpp:224-277 | in every run: with all deadlines ahead, the timeout is not shorter than the earliest wait and at most a second longer |
| `LivenessCommands.BlocksForGoodExactly` | src/components/cpp/ServiceDirectory/ServiceDirectoryUDPReceiver.cpp:224-277 | in every run: the timeout is zero if and only if no domain survives the sweep or the last one by name that does is late even by its next deadline |
| `LivenessExamples.BlocksThoughABroadcastIsDue` | src/components/cpp/ServiceDirectory/ServiceDirectoryUDPReceiver.cpp:224-277 | a run of three broadcasts after which the receiver blocks for good five seconds before one is due |
| `UdpReceivers.UdpReceiver.IsValidDomain` | src/components/cpp/ServiceDirectory/ServiceDirectoryUDPReceiver.cpp:396-407 | a domain is valid if it or a star is configured |
| `UdpReceivers.UdpReceiver.HearBroadcast` | src/components/cpp/ServiceDirectory/ServiceDirectoryUDPReceiver.cpp:175-219 | a broadcast counts, connects or updates, is told as `LivenessUpdates` says of every run, and sets the next deadline |
| `UdpReceivers.UdpReceiver.CheckDeadlines` | src/components/cpp/ServiceDirectory/ServiceDirectoryUDPReceiver.cpp:224-277 | the sweep in the order of names counts misses, removes domains and computes the timeout |
| `UdpReceivers.UdpReceiver.HandleReceive` | src/components/cpp/ServiceDirectory/ServiceDirectoryUDPReceiver.cpp:135-293 | one round of the loop is one specified round |
| `UdpReceivers.DomainKeeper.ProcessDomainCommand` | src/components/cpp/ServiceDirectory/ServiceDirectory.cpp:396-441 | the directory obeys one command |
| `Requests.EveryRequestHasOneFate` | src/api/cpp/GravityRequestManager.cpp:79-260 | each accepted request is pending on one polled socket or was filled, timed out or aborted once, for the right reason, through any chain of future responses |
| `Requests.FatesAreFinal` | src/api/cpp/GravityRequestManager.cpp:79-260 | no later event takes an outcome back |
| `Requests.ResponsesAreGood` | src/api/cpp/GravityRequestManager.cpp:176-259 | a pass over the responses keeps every request and leaves the poll vector with exactly the pending sockets |
| `Answers.ResponsesReachTheirRequests` | src/api/cpp/GravityRequestManager.cpp:181-259 | in a pass an answer of the provider asked fills its request with that very answer, one of any other provider aborts it, a future response moves it unchanged to a fresh polled socket, and nothing else happens |
| `Answers.EveryAnswerHasArrived` | src/api/cpp/GravityRequestManager.cpp:181-259 | in every run what a requestor is given has arrived on the socket its request was waiting on |
| `Answers.AcceptedAsAsked` | src/api/cpp/GravityRequestManager.cpp:399-470 | in every run the requests accepted are the ones asked, each with the deadline asked for |
| `Answers.TimesOutInTime` | src/api/cpp/GravityRequestManager.cpp:83-112 | in every run no request times out before its time, and one without a timeout never does |
| `Answers.NobodyWaitsTooLong` | src/api/cpp/GravityRequestManager.cpp:83-112 | whoever is still pending after a scan may wait longer |
| `Requests.HangsExactly` | src/api/cpp/GravityRequestManager.cpp:96-107 | handling expired requests ends if and only if they are, in the order of the map, the first that are polled |
| `Requests.WakesForTheFirst` | src/api/cpp/GravityRequestManager.cpp:83-123 | the poll timeout is the wait of the first request that can time out |
| `Requests.WakesInTimeExactly` | src/api/cpp/GravityRequestManager.cpp:83-128 | which is in time for all if and only if that one has the earliest deadline |
| `RequestExamples.SecondExpiresFirst` | src/api/cpp/GravityRequestManager.cpp:96-107 | a run of two requests of which the second expires first, and the scan hangs |
| `RequestExamples.SecondIsOverslept` | src/api/cpp/GravityRequestManager.cpp:83-128 | a run of two requests of which the second is overslept |
| `RequestManagers.RequestManager.ProcessRequest` | src/api/cpp/GravityRequestManager.cpp:399-470 | a request gets a socket, a deadline and an entry |
| `RequestManagers.RequestManager.HandleExpired` | src/api/cpp/GravityRequestManager.cpp:81-124 | the scan times out expired requests, computes the timeout, or hangs exactly as specified |
| `RequestManagers.RequestManager.ProcessResponses` | src/api/cpp/GravityRequestManager.cpp:176-259 | the pass does to the requests what `Answers` says, erasing poll items in place |
| `Archives.SwapReversesExactly` | src/components/cpp/Playback/FileReader.cpp:181-181 | endian_swap reverses the bytes when the highest is below 128 and is negative otherwise |
| `Archives.TruncatedArchivesAreRead` | src/components/cpp/Playback/FileReader.cpp:88-134 | any truncation of an archive is read as its complete records, up to the first length that cannot be swapped |
| `Archives.RoundTripExactly` | src/components/cpp/Playback/FileReader.cpp:41-134 | a whole archive is read back if and only if every length can be swapped |
| `Archives.LongRecordIsLost` | src/components/cpp/Playback/FileReader.cpp:41-134 | a record of 128 bytes from a machine of the other byte order is not |
| `Playback.DeliversInOrder` | src/components/cpp/Playback/FileReader.cpp:63-179 | for every interleaving the popped records are a prefix of the wanted ones, the queue is never popped empty, and null means all were popped |
| `Playback.ArchivedIsPlayedBack` | src/components/cpp/Archiver/FileArchiver.cpp:116-137 | the same from the writer's records, for every truncation |
| `Playback.PlaybackCrashesExactly` | src/components/cpp/Playback/FileReader.cpp:88-134 | some interleaving ends the program if and only if the bytes present hold the length of the first record that cannot be swapped, and with it all records before |
| `Playback.LongRecordCrashes` | src/components/cpp/Playback/FileReader.cpp:88-134 | a record of 128 bytes from a machine of the other byte order does |
| `Playback.PopConserves` | src/components/cpp/Playback/FileReader.cpp:160-166 | popping moves the oldest queued record, and popped, queued and unread ones together stay what the archive holds |
| `ArchiveFiles.FileArchiver.SubscriptionFilled` | src/components/cpp/Archiver/FileArchiver.cpp:116-137 | appends each record behind its length unless suspended |
| `ArchiveFiles.FileReader.ReadNextDataProduct` | src/components/cpp/Playback/FileReader.cpp:88-134 | reads up to the next wanted record |
| `KeyValues.BucketFindsTheFirst` | src/keyvalue_parser/keyvalue_parser.c:40-61 | looking in a key's bucket finds the first pair stored for it |
| `KeyValues.ScanFindsTheFirst` | src/keyvalue_parser/keyvalue_parser.c:40-61 | as does a scan of all buckets |
| `KeyValues.ScanIsComplete` | src/keyvalue_parser/keyvalue_parser.c:154-177 | a scan meets every stored pair once |
| `KeyValueLists.VarList.Insert` | src/keyvalue_parser/keyvalue_parser.c:125-137 | an element is linked in at the tail |
| `KeyValueLists.VarList.Remove` | src/keyvalue_parser/keyvalue_parser.c:104-121 | an element is taken out wherever it is, and the rest stays linked both ways |
| `KeyValueLists.VarList.FindEl` | src/keyvalue_parser/keyvalue_parser.c:52-61 | finds the first element with the key |
| `KeyValueLists.VarList.Clear` | src/keyvalue_parser/keyvalue_parser.c:66-82 | freeing ends with an empty list and detached elements |
| `KeyValueTables.KeyValueTable.GetString` | src/keyvalue_parser/keyvalue_parser.c:181-187 | returns the first value stored for the key |
| `KeyValueTables.KeyValueTable.Store` | src/keyvalue_parser/keyvalue.y:88-100 | a definition goes to the end of its key's bucket, whatever has been stored before |
| `KeyValueTables.CopyKeys` | src/keyvalue_parser/keyvalue_parser.c:168-174 | the keys of one bucket fill the next slots and no others |
| `KeyValueTables.KeyValueTable.GetKeys` | src/keyvalue_parser/keyvalue_parser.c:154-177 | fills exactly the counted slots, then the end mark |
| `KeyValueTables.KeyValueTable.Close` | src/keyvalue_parser/keyvalue_parser.c:191-194 | leaves every list empty |

## Left out

- Sockets, ports, high-water marks, polling flags, signals, threads' start-up and logging: foreign calls and plumbing.
- Protobuf encoding: messages are datatypes with the fields the code reads.
- Lost messages, reconnects and lost replies: channels deliver everything in order.
- Timeout monitors of subscriptions and `calculateTimeout`: removing a subscription that still has a monitor, and setting one on
  a product with several filters, break the tables.
- More than one ready socket per pass of the subscription manager; what can go wrong then is `SubscriptionLaws.QueuedTwice`.
- SubscriptionDetails as objects shared by pointers: they are known by product and filter, so an entry that outlives its
  subscription inside one pass is not represented.
- The nested maps of the directory are flattened to one map from domain and id; an absent list and an empty one are the same
  to every reader.
- Replication.ReplicaCatchesUp: speaks of data products, URLs and seconds only, and leaves aside RegisteredPublishers, because
  relay flags and addresses are not copied.
- ServiceReplication.ServicesCatchUp: one link without restarts, and services that keep to one URL, because unregistering a
  replaced service names the wrong URL (`ServiceReplication.WithdrawalReachesExactly`).
- Synchronizing.FollowersCatchUp: a domain whose last change was to a service is removed only when no data product of its last
  picture has the ID of a service; otherwise Remove can take the time of a publisher that stays listed
  (`Removals.ServiceRemovalForgetsExactly`). The same holds of Synchronizing.RemovedDomainsLeaveTheirRemnant.
- Synchronizing.TurnSimulated: an Update for a domain that is not followed would follow a null pointer; the commands of the
  receiver exclude it (`LivenessCommands.CommandsAreSentences`). Looking a domain up again after an empty answer takes no turn.
- Synchronizing.UntroubledDomainsAgree: a directory that restarts within the second of its last start is not told apart by its
  registration time; restarts happen in later seconds.
- Recovery.DirectoryHoldsWhatNodesPublish: speaks of data products; services are kept in a map of the same shape.
- DirectoryTimes.PublishersHaveTheirTime: seconds are unbounded, the source keeps them in 32 bits.
- GravityNodes.GravityNode.RegisterDataProduct: the ID of a node's own heartbeat, which is reserved once it has one.
- GravityNodes.GravityNode.Reregister: retries are a number of repeated requests; the waiting between them is not represented.
- EndToEnd.SubscriptionsReachTheirPublishers: one domain; other directories are `Synchronizing`. Closing a filter, a second
  subscriber and mismatched data are part of a run exactly as far as `EndToEndLimits` shows that they leave it intact.
- Replays.DeliversEverythingOnce: data that comes from its source; `RelayedData` is about what a relay passes on.
- SubscriptionManagers.SubscriptionManager.AddSubscription: leaves the order of cached values with equal timestamps open, as
  std::sort does.
- Requests.WakesForTheFirst: assumes that no timeout is longer than the time since 1970.
- Future responses on the provider's side, the URL that one names, and the notice of a stale service after an aborted request.
- RequestManagers.RequestManager.HandleExpired: a scan that does not end is reported by a result instead of not returning.
- Null pointers handed to the key/value store, which answers them with nothing.
- The lexer and grammar of parameter files, and the splitting of product lists.
- ArchiveFiles.FileReader.ReadNextDataProduct: a length that no buffer can have sets a flag instead of ending the program.
- Metrics, heartbeats, configuration, service and relay registration, and the other language bindings.
