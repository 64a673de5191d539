# Reliable messaging between the release-notification services

Three services share one protocol. The subscription service stores subscriptions and confirmation sagas, the notification
service mails confirmation links and answers, and the tracker keeps its own copy of the confirmed subscribers and queues a
notification for each of them when GitHub has a new release. State changes and messages are tied together by transactional
outboxes, relays, requeues and upserts, so what the protocol promises holds only across files and over whole runs. This
project models that protocol and proves those promises.

Two layers meet here.

* **State machines** describe what can happen when everything interleaves. `Outbox` is one outbox table with any number of
  relays; `Tracker` is the tracker, one statement per step; `CachedReads` is the GitHub client with its cache; `System`
  joins the subscription service, the broker, the notification service, both relays and the tracker. In `System` a
  transaction that changes a subscription row is two steps, the statement that settles which row and the commit, with
  anything in between. A delivery stays in its queue until it is settled, so redelivery at any time is part of every run,
  and so are crashes between any two steps.
* **Classes** follow the services' own code: a database session with transactions (`Storage`), the relay loop (`Relay`), the
  orchestrator, the use case and their repositories (`SubscriptionService`), the two consumers of the confirmation exchange
  (`NotificationService`, `SubscriptionService.SagaResultConsumer`), the tracker's repositories, use case and handlers
  (`TrackerStore`), the release processor (`Releases`) and the cached client (`CachedReads`). Whatever can fail is an
  explicit argument, so the contracts say exactly when a method reports an error and what it has changed by then; so is what
  other requests do to the database between two statements of a method. The lemmas named `...IsARun` and `...AreSteps` show
  that what the methods do is a run of the machines.

The machines' own theorems are in `Outbox`, `RelayFairness`, `RelayOrder`, `LateCommits`, `Replies`, `TrackerReplica`,
`TrackerRefinement`, `CachedReads`, `Releases`, `Announcements`, `OverlappingPasses` and, for the whole system, `Guarantees`,
`Commands`, `TagCopy`, `ReplayCoverage` and `ReplayRace`; `SystemInvariant` holds the invariant these rest on.

What is assumed:

* Serial ids are never handed out twice. Tokens need not be fresh; none of the theorems uses it.
* A publish that returns nil is in its queue, and queues lose nothing. A publish that returns an error may be in its queue
  all the same (`Unconfirmed`).
* Encoding a message and decoding it again is the identity, and the GitHub client never returns nothing without an error.
* Transactions are PostgreSQL's READ COMMITTED, the level the transactor gets: a statement sees what is committed when it
  executes, a row that a transaction has inserted, updated or deleted is held until it ends, and a statement that needs a
  held row waits. A DELETE that finds no row holds nothing and does not wait for an insert that is still open. A failed
  statement aborts its transaction: later statements fail and a commit rolls back.
* The subscription database never deletes users or repositories, and e-mail and full name are unique there, so they identify
  the rows.
* For the tag copy alone: only the tracker calls UpdateTag. The endpoint itself takes any tag from a holder of the API key
  (services/subscription/internal/transport/http/handlers/subscription_handler.go:299-310).
* A fetch takes the first unlocked PENDING rows of one moment. With SKIP LOCKED the database tests the rows one by one while
  another relay's batch may commit, so with several relays a batch need not be that of any one moment. AtLeastOnce and
  DuplicatesComeFromAborts do not turn on which PENDING rows a batch holds; NoStarvation and the theorems about order speak of
  one relay.
* For the announcement theorems alone: GetOrCreate calls one at a time and cached calls one at a time - and, only for
  OnePassNeverAnnouncesTwice, one release pass at a time, which is how the worker calls it
  (services/tracking/cmd/notification-worker/main.go:106-123).

A closure passed to `WithinTransaction` is written out as begin, body, and commit or rollback.

Some promises fail as they are usually put, and the project says exactly when they hold, with a run that fails for each:

* Replaying the activation and unsubscription events covers the confirmed subscriptions throughout a run exactly if no
  unsubscription whose DELETE had found no row commits its event while a confirmed row of its key is there. Behind every
  failure is a Confirm that commits while such an unsubscription is open.
* Handling replies is insensitive to order and repetition exactly if no saga gets both a success and a failure.
* Publication follows commit order exactly if rows commit in the order of their ids.
* The tracker's tables refine the map of their events under any interleaving exactly if no repository is deleted while it
  has subscribers, that is, no upsert gets in between an unsubscription's check and its deletion.
* If GitHub's tags never repeat, no tag is announced twice to a subscriber as long as no release commits over a row that has
  moved since its pass listed it; passes that do not overlap never do, and behind every duplicate there is such a release.
* A cached release was GitHub's answer at some moment of the last five minutes exactly for calls that write the cache in
  the second they asked GitHub, because the five minutes count from the write.

## Model

| member | source | states |
|---|---|---|
| Outbox.AtLeastOnce | services/subscription/internal/infrastructure/outbox/relay.go:74-112 | In every run of any number of relays, a committed row is still in the table or the broker accepted it; FAILED holds exactly at 5 attempts and PENDING exactly below |
| Outbox.DuplicatesComeFromAborts | services/subscription/internal/infrastructure/outbox/relay.go:75-111 | Open batches are disjoint; a row's successful publishes are as many as the aborted batches that had published it, or one more, and exactly as many while the row is in the table and not in flight |
| Outbox.StepKeeps | services/subscription/internal/repository/postgres/outbox_repository.go:41-48 | Every insert, fetch, publish, commit, rollback and crash keeps batches disjoint and locked, rows as committed, and the balance of publishes against aborts |
| RelayFairness.NoStarvation | services/subscription/internal/infrastructure/outbox/relay.go:16-19 | From any reachable moment of the only relay, a row with k PENDING rows of smaller id has left PENDING after 5 * (k / 100 + 1) committed batches, one more if a batch is open, whatever fails and whatever arrives behind it |
| RelayOrder.PublishesInInsertionOrder | services/subscription/internal/infrastructure/outbox/relay.go:74-112 | With one relay and no failure, what was published is a prefix of what was inserted, and all of it once the table is empty, provided rows commit in the order of their ids |
| LateCommits.OrderKeptExactlyForAscendingIds | services/subscription/internal/repository/postgres/outbox_repository.go:41-48 | For any log of rows, every failure-free run publishes a prefix of it if and only if the rows committed in ascending order of their ids |
| LateCommits.LateCommitOvertakes | services/subscription/internal/repository/postgres/outbox_repository.go:41-48 | Wherever a row commits after one with a larger id, there is a failure-free run that publishes out of commit order |
| Storage.Session.Begin | shared/infrastructure/storage/postgres/transactor.go:19-23 | Opens a transaction that has done nothing yet, or reports an error and changes nothing |
| Storage.Session.Exec | shared/infrastructure/storage/postgres/transactor.go:33-38 | What a statement inside a transaction has decided to do is done at the commit, to the tables as they are then; a failed one poisons the transaction; outside one it commits at once |
| Storage.Session.Rollback | shared/infrastructure/storage/postgres/transactor.go:33-38 | Nothing the transaction did survives |
| Storage.Session.Commit | shared/infrastructure/storage/postgres/transactor.go:40-43 | The changes survive exactly when no statement failed and the commit got through |
| Relay.OutboxRepository.FetchPending | services/subscription/internal/repository/postgres/outbox_repository.go:41-71 | Returns the first `limit` PENDING rows by ascending id among those nobody else has locked |
| Relay.OutboxRepository.Delete | services/subscription/internal/repository/postgres/outbox_repository.go:74-85 | Removes the row; a failure poisons the transaction |
| Relay.OutboxRepository.Fail | services/subscription/internal/repository/postgres/outbox_repository.go:87-104 | Counts an attempt and sets FAILED at the limit; a failure poisons the transaction |
| Relay.Relay.ProcessMessage | services/subscription/internal/infrastructure/outbox/relay.go:91-112 | Publishes, then deletes the row or counts the failure; a failed statement is swallowed but poisons the batch |
| Relay.Relay.Process | services/subscription/internal/infrastructure/outbox/relay.go:74-89 | One batch: the broker gets what was published even if the batch later rolls back; the table, as others leave it by the commit, settles exactly if nothing failed |
| Relay.BatchIsARun | services/tracking/internal/infrastructure/outbox/relay.go:74-112 | The loop's effect on the table, on the acknowledgements and on the messages in the broker, unconfirmed ones included, is that of a run of the machine, with rows inserted by others before the commit |
| Replies.HandleAllIsOutcome | services/subscription/internal/saga/orchestrator.go:85-170 | If no saga gets both kinds of reply, any sequence of replies leaves the tables that the set of replies determines |
| Replies.OrderMattersExactlyOnConflict | services/subscription/internal/saga/orchestrator.go:140-170 | Order and repetition do not show if and only if no saga of the table gets both a success and a failure |
| Guarantees.NoSagaIsOrphaned | services/subscription/internal/saga/orchestrator.go:43-138 | In every reachable state a STARTED saga has its own command in the outbox or the confirmations queue, or a reply to it in the results queue |
| Guarantees.ReferencesNeverDangle | services/subscription/internal/saga/orchestrator.go:55-74 | Every command in outbox or queue and every queued reply names an existing saga whose subscription id is the one carried |
| Guarantees.SagaStates | services/subscription/internal/repository/postgres/saga_repository.go:29-113 | STARTED implies SEND_CONFIRMATION; COMPLETED implies ACTIVATE_SUBSCRIPTION and an accepted mail for its own command; COMPENSATED implies a refused one and no row with its subscription id |
| Guarantees.ForGood | services/subscription/internal/repository/postgres/subscription_repository.go:168-174 | Over any run STARTED is never re-entered, and a subscription id that has lost its row never has one again, whatever transactions were open |
| Guarantees.CompensationIsFinal | services/subscription/internal/saga/orchestrator.go:140-160 | After a COMPENSATED state no row ever has the saga's subscription id, and a late failure reply removes no row, whatever was inserted since |
| Guarantees.OutcomeSoundness | services/notification/internal/transport/broker/rabbitmq/confirmation_consumer.go:118-179 | Behind a COMPLETED saga is an earlier step in which SMTP accepted the mail of its own command, behind a COMPENSATED one a step in which it was refused with something other than "unavailable" |
| Guarantees.DoubleOptIn | services/subscription/internal/usecase/user_usecase.go:228-256 | Behind every release notification in the tracker's outbox or the queue is an earlier Confirm with exactly its token for exactly its e-mail and repository |
| Guarantees.GrantsComeFromConfirm | services/subscription/internal/usecase/user_usecase.go:224-234 | Every grant in the history was made by a step that calls Confirm with the token the row then had |
| ReplayCoverage.ReplayCoversExactly | services/subscription/internal/usecase/user_usecase.go:159-176 | Replaying the committed events in commit order, each any number of times in a row, maps a confirmed subscription to its current token if and only if no removal that had found no row has committed its event since the Confirm |
| ReplayCoverage.CoversExactlyWithoutTakingBack | services/subscription/internal/usecase/user_usecase.go:291-307 | Over any run, replay covers every confirmed row at every moment if and only if no removal whose DELETE had found no row commits while a confirmed row of its key is there |
| ReplayRace.RaceBehindTakingBack | services/subscription/internal/usecase/user_usecase.go:228-256 | Wherever a confirmation is about to be taken back, the removal was opened by a DELETE that found no row, and a Confirm of that key committed while it was open |
| ReplayRace.ConfirmationTakenBack | services/subscription/internal/repository/postgres/subscription_repository.go:33-59 | From any reachable state with a row nobody holds: Confirm and two unsubscriptions interleave so that the subscription ends confirmed and replay forgets it |
| ReplayRace.ReplayCanForget | services/subscription/internal/usecase/user_usecase.go:282-307 | For every user, repository and token such a run exists from the empty system |
| ReplayCoverage.TrackerCoversExactly | services/tracking/internal/transport/broker/rabbitmq/subscription_activated_consumer.go:109-131 | A tracker that handled the events one at a time in commit order holds the current token of a confirmed subscription under exactly the same condition |
| Guarantees.TagCopyIsNeverInvented | services/subscription/internal/repository/postgres/repository_repository.go:29-37 | If only the tracker calls UpdateTag, the subscription database's tag of a name is null or a tag the tracker's row of that name held at some moment of the run |
| TagCopy.CopyIsTheLastUpdate | services/subscription/internal/repository/postgres/repository_repository.go:29-88 | In every run the copy of a known name is the tag of the last update committed for it or, if there was none, the tag it was registered with, null for an empty one |
| Commands.CommandsComeFromSubscribe | services/subscription/internal/saga/orchestrator.go:60-74 | Behind every command in outbox, queue or handling and every mail accepted or refused is an earlier Subscribe of exactly its e-mail and repository with exactly its token, whose commit stored the row with the command's subscription id under that key |
| Commands.RowsKeepTheirKey | services/subscription/internal/repository/postgres/subscription_repository.go:168-193 | In every reachable state a row with a sent command's subscription id stands under the command's own e-mail and repository |
| Commands.RepliesCarryTheCommand | services/notification/internal/transport/broker/rabbitmq/confirmation_consumer.go:118-179 | Every reply in the results queue carries its command's ids, e-mail, repository and token, and reports what became of that command's mail |
| SystemInvariant.StepKeeps | services/subscription/internal/transport/broker/rabbitmq/saga_result_consumer.go:89-111 | Every statement and commit of any service, relay or consumer keeps references, saga states, progress, tags, opt-in, what open transactions hold, and exactly which confirmed rows replay covers |
| SystemInvariant.RowsAfterCall | services/subscription/internal/repository/postgres/subscription_repository.go:168-174 | No call brings a row back for an id that a committed row has had, whatever transactions are open |
| Replay.StutteringIsHarmless | services/tracking/internal/repository/postgres/subscription_repository.go:105-109 | Delivering each event several times in a row changes nothing |
| SubscriptionService.SubscriptionRepository.GetByToken | services/subscription/internal/repository/postgres/subscription_repository.go:80-111 | Finds a committed row with the token, reports "not found" exactly if there is none |
| SubscriptionService.SubscriptionRepository.Save | services/subscription/internal/repository/postgres/subscription_repository.go:168-193 | Upserts by user and repository, keeps the id of an existing row and returns it; fails on a token another row has |
| SubscriptionService.SubscriptionRepository.Delete | services/subscription/internal/repository/postgres/subscription_repository.go:33-59 | Settles when it executes whether there is a row of that user and repository to remove at the commit |
| SubscriptionService.SubscriptionRepository.DeleteByID | services/subscription/internal/repository/postgres/subscription_repository.go:61-78 | Settles when it executes whether there is a row of that id to remove at the commit |
| SubscriptionService.UserRepository.Create | services/subscription/internal/repository/postgres/user_repository.go:59-84 | Adds the user and keeps the others and everything else; fails on an e-mail already there |
| SubscriptionService.RepositoryRepository.GetOrCreate | services/subscription/internal/repository/postgres/repository_repository.go:33-58 | A new name is stored with its tag, an empty one as null; an existing row keeps its own tag, and nothing else changes |
| SubscriptionService.RepositoryRepository.UpdateTag | services/subscription/internal/repository/postgres/repository_repository.go:60-88 | The name has exactly the new tag and everything else is as before; no such row is an error |
| SubscriptionService.SagaRepository.Create | services/subscription/internal/repository/postgres/saga_repository.go:29-56 | Inserts a STARTED saga at SEND_CONFIRMATION |
| SubscriptionService.SagaRepository.UpdateStatus | services/subscription/internal/repository/postgres/saga_repository.go:78-107 | Sets the status and nothing else; no such row is no error |
| SubscriptionService.SagaRepository.UpdateStatusAndStep | services/subscription/internal/repository/postgres/saga_repository.go:109-143 | Sets status and step in a statement of its own |
| SubscriptionService.OutboxRepository.Insert | services/subscription/internal/repository/postgres/outbox_repository.go:28-39 | Adds a PENDING row with no attempts to the caller's transaction |
| SubscriptionService.Orchestrator.Start | services/subscription/internal/saga/orchestrator.go:43-83 | In the caller's transaction: a STARTED saga and a PENDING command with the saga's and the subscription's id and exactly the e-mail, repository and token asked for, and nothing else - or an error that poisons the transaction |
| SubscriptionService.Orchestrator.HandleConfirmationReply | services/subscription/internal/saga/orchestrator.go:85-100 | Exactly when a reply fails, and what the database is afterwards, with whatever others do between its two statements; undisturbed, a success completes exactly its saga, a failure removes exactly the row of its subscription id and compensates exactly its saga |
| SubscriptionService.Orchestrator.StepActivateSubscription | services/subscription/internal/saga/orchestrator.go:102-138 | An unknown saga is an error, a completed one is left alone, any other becomes COMPLETED |
| SubscriptionService.Orchestrator.Compensate | services/subscription/internal/saga/orchestrator.go:140-170 | The row its DELETE found is deleted and the saga COMPENSATED, both or neither, whatever the status was and whatever others did in between |
| SubscriptionService.SagaResultConsumer.Handle | services/subscription/internal/transport/broker/rabbitmq/saga_result_consumer.go:89-111 | Acknowledges exactly if the orchestrator succeeds, requeues exactly if it fails, drops only what does not decode |
| SubscriptionService.UserUseCase.Subscribe | services/subscription/internal/usecase/user_usecase.go:71-130 | Undisturbed, with the tracker's answer and a token nobody else bears, it is done from any start: repository and user are known, the row is unconfirmed with this token, saga and command are there, and nothing else differs. Amid what others do, row, saga and command are stored together exactly if every statement succeeds and no constraint stands against the row, and a user that others register after the lookup makes the call fail |
| SubscriptionService.UserUseCase.Confirm | services/subscription/internal/usecase/user_usecase.go:207-260 | Invalid exactly for the empty or an unknown token; otherwise the row read before the transaction is stored as confirmed with that token, even if it was deleted or replaced since, together with its event, on what others leave by the commit |
| SubscriptionService.UserUseCase.Unsubscribe | services/subscription/internal/usecase/user_usecase.go:132-179 | An unknown user is no error and stores nothing; otherwise the event is stored together with the deletion of the row the DELETE found, and also if it found none while others insert one before the commit |
| SubscriptionService.UserUseCase.UnsubscribeByToken | services/subscription/internal/usecase/user_usecase.go:262-311 | Invalid exactly for the empty or an unknown token; otherwise the event is stored together with the deletion of the row the DELETE found, and also if it found none |
| ServiceRuns.SubscribeIsARun | services/subscription/internal/usecase/user_usecase.go:119-127 | Subscribe's transaction is an upsert step and a commit step around any steps of others, and stores what the method stores |
| ServiceRuns.ConfirmIsARun | services/subscription/internal/usecase/user_usecase.go:238-256 | The same for Confirm |
| ServiceRuns.LeaveIsARun | services/subscription/internal/usecase/user_usecase.go:291-307 | The same for both unsubscriptions: the DELETE settles whether there is a row, whatever others do until the commit |
| ServiceRuns.StatementsAreSteps | services/subscription/internal/infrastructure/adapter/repository_usecase_adapter.go:49-54 | Each statement outside the transactions is one step that stores what the method stores, and the first step of a transaction stores nothing yet |
| ServiceRuns.ReplyIsARun | services/subscription/internal/transport/broker/rabbitmq/saga_result_consumer.go:104-110 | Handling a reply with any steps of others between its two statements is a run that leaves the database as the method does and removes the delivery exactly if it is acknowledged |
| ServiceRuns.ReplyStopsIsARun | services/subscription/internal/saga/orchestrator.go:111-121 | The same for a reply that gets no further than its first statement |
| ServiceRuns.UndisturbedReply | services/subscription/internal/saga/orchestrator.go:85-170 | Without interference a reply that does not fail does what the pure handler says, a failing one nothing |
| NotificationService.ConfirmationConsumer.Handle | services/notification/internal/transport/broker/rabbitmq/confirmation_consumer.go:98-146 | Mail first, then a success reply with the command's own fields; acknowledged only if the reply was confirmed |
| NotificationService.ConfirmationConsumer.HandleEmailError | services/notification/internal/transport/broker/rabbitmq/confirmation_consumer.go:148-180 | "Unavailable" requeues without a reply; any other error publishes a failure reply and drops the command, or requeues it if the reply was not confirmed |
| NotificationService.DeliveryIsARun | services/notification/internal/transport/broker/rabbitmq/confirmation_consumer.go:118-179 | One handling, with any steps of others between mail, reply and settlement, is a run: it removes the delivery exactly if it is not requeued, and only after the reply is in the results queue |
| TrackerTables.ShowsOneMap | services/tracking/migrations/000003_tracker_subscriptions.up.sql:3 | Well-formed tracker tables show exactly one map from repository and e-mail to token |
| TrackerReplica.ActivationUpdates | services/tracking/internal/transport/broker/rabbitmq/subscription_activated_consumer.go:109-131 | The activation handler, stopped anywhere, changes the map exactly by its last statement |
| TrackerReplica.UnsubscriptionRemoves | services/tracking/internal/transport/broker/rabbitmq/unsubscription_activated_consumer.go:113-145 | The unsubscription handler removes one key with its first statement; the repository goes exactly with its last subscriber and takes nobody along |
| TrackerReplica.ActivationRedelivered | services/tracking/internal/transport/broker/rabbitmq/subscription_activated_consumer.go:109-131 | Stopping after any statement and redelivering leaves the map of one full run, even under a new repository id |
| TrackerReplica.UnsubscriptionRedelivered | services/tracking/internal/transport/broker/rabbitmq/unsubscription_activated_consumer.go:113-145 | The same for unsubscription |
| TrackerReplica.RefinesMap | services/tracking/internal/transport/broker/rabbitmq/unsubscription_activated_consumer.go:113-145 | Over any sequence of deliveries, repeated and stopped half-way, the tables show what the effective events make of a map |
| TrackerRefinement.StepShows | services/tracking/internal/transport/broker/rabbitmq/unsubscription_activated_consumer.go:113-145 | Whatever the other handlers are doing, an upsert updates the map, a removal takes its key, a repository deletion takes every key it still has, and no other statement changes it |
| TrackerRefinement.RefinesExactlyWithoutCascade | services/tracking/internal/transport/broker/rabbitmq/unsubscription_activated_consumer.go:127-145 | Over any interleaved run the tables show the map of the events so far at every moment if and only if no repository is deleted while it has subscribers |
| TrackerRefinement.CascadeHappens | services/tracking/migrations/000002_subscriptions.up.sql:4 | For any two subscribers of a repository a run exists in which an unsubscription's deletion takes the new subscriber's row away |
| TrackerStore.RepositoryRepository.GetAll | services/tracking/internal/repository/postgres/repository_repository.go:33-70 | Lists every repository with subscribers exactly once, with its id and tag |
| TrackerStore.RepositoryRepository.Create | services/tracking/internal/repository/postgres/repository_repository.go:105-127 | Inserts the row; fails on a name already there |
| TrackerStore.RepositoryRepository.Update | services/tracking/internal/repository/postgres/repository_repository.go:146-169 | Sets the tag of the id; no such row is an error that leaves the transaction alive |
| TrackerStore.RepositoryRepository.Delete | services/tracking/internal/repository/postgres/repository_repository.go:129-144 | Deletes the repository and by cascade its subscribers |
| TrackerStore.SubscriptionRepository.GetByRepoID | services/tracking/internal/repository/postgres/subscription_repository.go:29-62 | Lists every subscriber of the repository exactly once, with its token |
| TrackerStore.SubscriptionRepository.Upsert | services/tracking/internal/repository/postgres/subscription_repository.go:105-120 | Stores the token under repository id and e-mail; fails on a repository id no row has |
| TrackerStore.SubscriptionRepository.DeleteByEmailAndRepo | services/tracking/internal/repository/postgres/subscription_repository.go:64-82 | Removes the subscriber of that name and e-mail, if any |
| TrackerStore.RepositoryUseCase.GetOrCreate | services/tracking/internal/usecase/repository_usecase.go:42-102 | Returns an existing row as it is; registers an unknown name, unless somebody else has meanwhile, exactly if it exists and has a release - by GitHub's own answers where nothing is cached, by the live entry otherwise - with that release's tag, and writes nothing in any other case |
| TrackerStore.RepositoryUseCase.CheckForUpdates | services/tracking/internal/usecase/repository_usecase.go:104-141 | Returns the snapshot with the client's tag exactly if the client reports another tag |
| TrackerStore.SubscriptionActivatedConsumer.Handle | services/tracking/internal/transport/broker/rabbitmq/subscription_activated_consumer.go:92-136 | Amid what others do between the statements: the upsert goes to the row found, fails if it is gone, and the delivery is acknowledged exactly if it is stored; undisturbed, the tables change as by a prefix of the handler |
| TrackerStore.UnsubscriptionActivatedConsumer.Handle | services/tracking/internal/transport/broker/rabbitmq/unsubscription_activated_consumer.go:96-150 | Amid what others do: the repository is deleted exactly if the check saw nobody, with whoever has joined since; undisturbed, the tables change as by a prefix of the handler |
| TrackerRuns.KnownActivationIsARun | services/tracking/internal/transport/broker/rabbitmq/subscription_activated_consumer.go:109-131 | Handling an activation whose repository the lookup finds, with any steps of others before the upsert, is a run that ends as the handler's contract says; the event leaves its queue exactly if the handler acknowledges it |
| TrackerRuns.NewActivationIsARun | services/tracking/internal/transport/broker/rabbitmq/subscription_activated_consumer.go:109-131 | The same for one that registers the repository, others acting before and after that, with the tag GetOrCreate gets from the cached client |
| TrackerRuns.FailedActivationIsARun | services/tracking/internal/transport/broker/rabbitmq/subscription_activated_consumer.go:109-119 | One that neither finds nor registers the repository is a run that leaves tables and queue to others |
| TrackerRuns.KnownCallIsARun | services/tracking/internal/transport/grpc/handler.go:47-64 | A gRPC call for a known repository is a run that hands the subscription service the row's tag |
| TrackerRuns.NewCallIsARun | services/tracking/internal/transport/grpc/handler.go:47-64 | A gRPC call for an unknown repository is a run that registers it and hands over the tag it was registered with, the one GetOrCreate gets from the cached client |
| TrackerRuns.UnsubscriptionIsARun | services/tracking/internal/transport/broker/rabbitmq/unsubscription_activated_consumer.go:113-145 | Handling an unsubscription that finds other subscribers, or whose check fails, others acting after the deletion, is a run; the event leaves its queue exactly if the check succeeds |
| TrackerRuns.EmptyingUnsubscriptionIsARun | services/tracking/internal/transport/broker/rabbitmq/unsubscription_activated_consumer.go:113-145 | One that finds nobody is a run with others acting before and after the check; the repository is deleted, with whoever has joined since, exactly if the event leaves its queue |
| TrackerRuns.ReleaseIsAStep | services/tracking/internal/usecase/release_processor.go:131-166 | Moving a repository as the processor does, with fresh row ids, is one step of the protocol with the same tag and messages |
| TrackerRuns.ReleaseIsARun | services/tracking/internal/usecase/release_processor.go:98-116 | A repository that the processor moves amid what others do is a run - detection, reading of the subscribers, release - with the outcome the processor's contract has |
| TrackerRuns.AnnouncementIsARun | services/tracking/internal/usecase/release_processor.go:118-128 | The tag update, or losing it, ends the repository and changes neither tables nor outbox |
| Tracker.StepKeepsOptIn | services/tracking/internal/usecase/release_processor.go:98-166 | Under statement-level interleaving every subscriber row, every list read by a pass and every notification carries a granted token |
| Tracker.StampsAreRows | services/tracking/internal/repository/postgres/repository_repository.go:146-165 | A tag not yet in the history of a name enters it with a step if and only if a row of that name holds it after the step |
| CachedReads.ReadsNeverGoBack | services/tracking/internal/infrastructure/clients/github/cached_github_client.go:67-92 | Whichever cache reads and writes fail, successive values never go back in the history of GitHub's answers |
| CachedReads.ReadsAreFresh | services/tracking/internal/infrastructure/clients/github/cached_github_client.go:84-90 | Every value was GitHub's answer less than the time to live plus the duration of the fetching call before it was handed out |
| CachedReads.ReleasesAreFresh | services/tracking/internal/infrastructure/clients/github/cached_github_client.go:61-93 | Every tag that successive calls return was GitHub's own answer less than 300 seconds plus the fetching call's duration before |
| CachedReads.ExistenceIsFresh | services/tracking/internal/infrastructure/clients/github/cached_github_client.go:36-59 | Every boolean that successive calls return was GitHub's own answer less than 60 seconds plus the fetching call's duration before |
| CachedReads.FiveMinutesExactlyWhenInstant | services/tracking/internal/infrastructure/clients/github/cached_github_client.go:84-90 | Everything handed out was GitHub's answer within the last five minutes if and only if the fetching call took no time |
| CachedReads.ReturningOnFailureWouldGoBack | services/tracking/internal/infrastructure/clients/github/cached_github_client.go:86-89 | Returning the value when the cache write fails would let reads go back |
| CachedReads.CachedGitHubClient.GetLatestRelease | services/tracking/internal/infrastructure/clients/github/cached_github_client.go:61-93 | A value comes from a live entry or from GitHub with a successful write; what is returned is in the cache afterwards |
| CachedReads.CachedGitHubClient.RepoExists | services/tracking/internal/infrastructure/clients/github/cached_github_client.go:36-59 | The result is a live entry's boolean or, with a successful write, GitHub's own; the entry written lives 60 seconds and is the word for that boolean; a failed write is an error |
| CachedReads.CallIsARun | services/tracking/internal/infrastructure/clients/github/cached_github_client.go:61-93 | A call, with GitHub's answer changing and time passing before it writes the cache, is a run of the machine that hands out exactly what the call returns, for tags and for booleans |
| Releases.OrderDoesNotMatter | services/tracking/internal/usecase/release_processor.go:85-96 | Two passes over the same repositories with the same luck leave the same tables and, as a multiset, the same outbox |
| Releases.SecondPassAddsNothing | services/tracking/internal/usecase/repository_usecase.go:133-140 | If the client repeats its answers, a second pass owes nothing for a repository that moved |
| Releases.NotesAreOwed | services/tracking/internal/usecase/release_processor.go:138-145 | The rows inserted for a moving repository are exactly one copy of each message owed to a subscriber row |
| Releases.OneMore | services/tracking/internal/usecase/release_processor.go:85-92 | One repository more extends an undisturbed pass: it keeps its tag and adds no rows, or moves and adds exactly its rows |
| Releases.ReleaseProcessor.CommitRelease | services/tracking/internal/usecase/release_processor.go:131-146 | Tag and one row per subscriber read, in order, exactly if every statement succeeds, on what others leave by the commit |
| Releases.ReleaseProcessor.ProcessRepo | services/tracking/internal/usecase/release_processor.go:98-129 | Amid what others do: the repository moves with exactly one notification per subscriber read, or nothing of this stays; the tag update is sent only after a commit, and losing it is no error |
| Releases.ReleaseProcessor.ProcessReleases | services/tracking/internal/usecase/release_processor.go:74-96 | A pass takes the database from one repository to the next as each one's own luck and interference have it, whatever happens to the others; undisturbed, the whole pass moves or keeps each of them |
| Releases.PassIsUndisturbed | services/tracking/internal/usecase/release_processor.go:85-96 | A pass that nobody disturbs leaves every repository moved with all its notifications or untouched, and one row per message due |
| Announcements.NoTagIsAnnouncedTwice | services/tracking/internal/usecase/repository_usecase.go:42-141 | If GitHub's tags never repeat and no release commits over a row that has moved since it was listed, at most one notification per repository name, e-mail and tag is ever inserted, across overlapping passes, cache expiry and failures, failed commits, deletion and re-registration |
| Announcements.DuplicateHasStaleRelease | services/tracking/internal/usecase/release_processor.go:112-146 | Behind every notification inserted twice is a step that releases a repository over a row that has moved since its pass listed it |
| OverlappingPasses.OnePassNeverAnnouncesTwice | services/tracking/cmd/notification-worker/main.go:106-123 | With one release pass at a time, as the worker makes them, no notification is inserted twice |
| OverlappingPasses.OverlappingPassesAnnounceTwice | services/tracking/internal/usecase/release_processor.go:112-129 | For any subscriber and two releases there is a run from the empty system in which GitHub's tags never repeat, cached calls and registrations go one at a time, and two overlapping passes insert the same notification twice |

## Left out

- Calls of SQL, AMQP, Redis, SMTP, HTTP and gRPC themselves: tables are maps, queues multisets, the cache a timed map, and each call may fail.
- The circuit breaker around the GitHub client: the client is an oracle with a history that may return an error.
- The text search that sorts SMTP errors into "authentication failed" and "unavailable": its two outcomes are inputs.
- HTTP and gRPC handlers, authentication, rate limiting, validation, error texts, logging, metrics, request ids and timeouts: thin code with one-branch facts.
- Reconnecting to the broker, and the direct publishers that the running application does not wire in.
- Listing subscriptions, `created_at` and `updated_at`, and every order by creation time.
- The decode-failure branches of the tracker's handlers; those of the two consumers of the confirmation exchange are modelled.
- The consumer of release notifications, beyond its acknowledgement: it mails and acknowledges, or requeues.
- A commit that reports an error although it got through, in the classes: there the report is what happened. In the machines it is a commit after which the caller goes no further, so the theorems about runs cover it.
- Agreement of the two databases in both directions, finality of COMPLETED and COMPENSATED, and exactly-once mail: the code does not provide them. Compensation ignores the status and sends the tracker no event, and a mail goes out again when its reply was not confirmed.
- CachedReads.ReadsAreFresh: allows the fetching call's own duration on top of the time to live, because the time to live counts from the write; the exact condition for the plain five minutes is CachedReads.FiveMinutesExactlyWhenInstant.
- RelayOrder.PublishesInInsertionOrder: needs rows to commit in the order of their ids, because the relay orders by id; that this is exactly the condition is LateCommits.OrderKeptExactlyForAscendingIds.
- Announcements.NoTagIsAnnouncedTwice: needs every release to find its row as it was listed, because the UPDATE does not check it and overlapping passes do announce twice; for the single worker's passes it is OverlappingPasses.OnePassNeverAnnouncesTwice.
- ReplayCoverage.TrackerCoversExactly: speaks of events handled one at a time in commit order, because the two event queues have no common order; what interleaved handlers do is TrackerRefinement.RefinesExactlyWithoutCascade.
- ReplayCoverage.ReplayCoversExactly: does not promise coverage without its condition, because an unsubscription that found no row may commit after a Confirm that inserted the row.
- TrackerRuns.ReleaseIsARun: speaks of repositories that move; one that does not is a step that lets the repository go, or none.
- Statements waiting for a row, and deadlocks: a statement that would wait is not taken yet, and a deadlock ends a transaction like any other error.
