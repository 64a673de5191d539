/** The subscription service over its database: repositories, orchestrator, use case and the consumer of replies.

    Arguments ending in `Ok` say whether the database carries a request out. `meanwhile`, `before` and `during` are what
    other requests do to the database between two statements: before the transaction begins, and while it is open. */
module SubscriptionService {
  import opened Contracts
  import opened Storage
  import opened SubscriptionTables
  import Outbox

  datatype Db = Db(tables: Tables, outbox: Outbox.Table)

  // ----- what statements do, once they have decided -----

  function Inserted(db: Db, rowId: nat, message: Message): Outbox.Table {
    Outbox.Insert(db.outbox, [Outbox.Entry(rowId, message)])
  }

  function Upserting(key: Key, id: nat, token: Token, confirmed: bool): Db -> Db {
    (db: Db) => db.(tables := Put(db.tables, key, id, token, confirmed))
  }

  function Deleting(key: Key, found: bool): Db -> Db {
    (db: Db) => db.(tables := Unput(db.tables, key, found))
  }

  function DeletingId(id: nat, found: bool): Db -> Db {
    (db: Db) => db.(tables := if found then DeleteById(db.tables, id) else db.tables)
  }

  function CreatingSaga(sagaId: nat, subscriptionId: nat): Db -> Db {
    (db: Db) => db.(tables := CreateSaga(db.tables, sagaId, subscriptionId))
  }

  function SettingStatus(sagaId: nat, status: SagaStatus): Db -> Db {
    (db: Db) => db.(tables := UpdateStatus(db.tables, sagaId, status))
  }

  function Inserting(rowId: nat, message: Message): Db -> Db {
    (db: Db) => db.(outbox := Inserted(db, rowId, message))
  }

  // ----- the transactions, on the database as it is when they commit -----

  function StoredPending(db: Db, key: Key, id: nat, token: Token, ids: Ids): Db {
    Db(CreateSaga(Put(db.tables, key, id, token, false), ids.saga, id),
       Inserted(db, ids.row, Confirmation(CommandFor(ids.saga, id, key, token))))
  }

  function StoredConfirmed(db: Db, key: Key, id: nat, token: Token, ids: Ids): Db {
    Db(Put(db.tables, key, id, token, true), Inserted(db, ids.row, Activated(key, token)))
  }

  function StoredRemoval(db: Db, key: Key, found: bool, ids: Ids): Db {
    Db(Unput(db.tables, key, found), Inserted(db, ids.row, Unsubscribed(key)))
  }

  /** The next numbers of the three sequences. */
  datatype Ids = Ids(subscription: nat, saga: nat, row: nat)

  /** No constraint stands against the upsert: user and repository exist, and no other row has the token. */
  ghost predicate CanSave(t: Tables, key: Key, token: Token) {
    && key.email in t.users && key.repo in t.repositories
    && NobodyElseBears(t, key, token)
  }

  ghost predicate NobodyElseBears(t: Tables, key: Key, token: Token) {
    forall k :: k in t.subscriptions && t.subscriptions[k].token == token ==> k == key
  }

  /** With user and repository known, what stands against it is another row with the token. */
  lemma TakenTokens(t: Tables, key: Key, token: Token)
    requires key.email in t.users && key.repo in t.repositories
    ensures !CanSave(t, key, token) <==>
      exists other :: other in t.subscriptions && other != key && t.subscriptions[other].token == token
  {
  }

  predicate Bears(t: Tables, key: Key, token: Token) {
    key in t.subscriptions && t.subscriptions[key].token == token
  }

  ghost predicate Known(t: Tables, token: Token) {
    exists key :: Bears(t, key, token)
  }

  // ----- repositories -----

  datatype Lookup = Found(key: Key) | NotFound | Failed

  class SubscriptionRepository {
    const db: Session<Db>

    constructor (db: Session<Db>)
      ensures this.db == db
    {
      this.db := db;
    }

    /** Reads outside any transaction. */
    method GetByToken(token: Token, ok: bool) returns (r: Lookup)
      ensures r.Failed? <==> !ok
      ensures r.NotFound? <==> ok && !Known(db.committed.tables, token)
      ensures r.Found? ==> Bears(db.committed.tables, r.key, token)
      ensures
        var rows := db.committed.tables.subscriptions;
        && (r.Found? ==> r.key in rows && rows[r.key].token == token)
        && (r.NotFound? ==> forall key :: key in rows ==> rows[key].token != token)
    {
      var t := db.committed.tables;
      if !ok { return Failed; }
      if key :| key in t.subscriptions && Bears(t, key, token) { return Found(key); }
      return NotFound;
    }

    /** The upsert; returns the id of the row. */
    method Save(key: Key, token: Token, confirmed: bool, freshId: nat, ok: bool) returns (id: Option<nat>)
      requires db.Valid() && db.open && !db.aborted
      modifies db
      ensures db.Valid() && db.open && db.committed == old(db.committed) && db.aborted == id.None?
      ensures
        var t := old(db.Current()).tables;
        && id == (if ok && CanSave(t, key, token) then Some(SavedId(t, key, freshId)) else None)
        && (id.Some? ==> db.pending == Then(old(db.pending), Upserting(key, id.value, token, confirmed)))
      ensures
        var seen, rows := old(db.Current()), old(db.Current()).tables.subscriptions;
        id.Some? ==>
          && id.value == (if key in rows then rows[key].id else freshId)
          && db.Current() == seen.(tables := seen.tables.(
               subscriptions := rows[key := Subscription(id.value, token, confirmed)]))
    {
      var t := db.Current().tables;
      var allowed := key.email in t.users && key.repo in t.repositories
        && forall k :: k in t.subscriptions && t.subscriptions[k].token == token ==> k == key;
      var done := db.Exec(Upserting(key, SavedId(t, key, freshId), token, confirmed), ok && allowed);
      return if done then Some(SavedId(t, key, freshId)) else None;
    }

    /** The row to delete is chosen now. */
    method Delete(key: Key, ok: bool) returns (done: bool)
      requires db.Valid() && db.open && !db.aborted
      modifies db
      ensures db.Valid() && db.open && db.committed == old(db.committed) && done == ok && db.aborted == !ok
      ensures done ==> db.pending == Then(old(db.pending), Deleting(key, key in old(db.Current()).tables.subscriptions))
      ensures
        var seen := old(db.Current());
        done ==>
          db.Current() == seen.(tables := seen.tables.(subscriptions := seen.tables.subscriptions - {key}))
    {
      done := db.Exec(Deleting(key, key in db.Current().tables.subscriptions), ok);
      assert old(db.Current()).tables.subscriptions - {key} == old(db.Current()).tables.subscriptions ||
        key in old(db.Current()).tables.subscriptions;
    }

    method DeleteByID(id: nat, ok: bool) returns (done: bool)
      requires db.Valid() && db.open && !db.aborted
      modifies db
      ensures db.Valid() && db.open && db.committed == old(db.committed) && done == ok && db.aborted == !ok
      ensures done ==> db.pending == Then(old(db.pending), DeletingId(id, HasRow(old(db.Current()).tables, id)))
      ensures
        var seen, rows := old(db.Current()), old(db.Current()).tables.subscriptions;
        done ==>
          && db.Current() == seen.(tables := seen.tables.(subscriptions := db.Current().tables.subscriptions))
          && (forall k :: k in db.Current().tables.subscriptions <==> k in rows && rows[k].id != id)
          && (forall k :: k in db.Current().tables.subscriptions ==> db.Current().tables.subscriptions[k] == rows[k])
    {
      done := db.Exec(DeletingId(id, HasRow(db.Current().tables, id)), ok);
    }
  }

  class UserRepository {
    const db: Session<Db>

    constructor (db: Session<Db>)
      ensures this.db == db
    {
      this.db := db;
    }

    method GetByEmail(email: Email, ok: bool) returns (found: Option<bool>)
      ensures found == if ok then Some(email in db.committed.tables.users) else None
    {
      return if ok then Some(email in db.committed.tables.users) else None;
    }

    method Create(email: Email, ok: bool) returns (done: bool)
      requires db.Valid() && !db.open
      modifies db
      ensures db.Valid() && !db.open && done == (ok && email !in old(db.committed.tables.users))
      ensures db.committed == if done then WithUser(old(db.committed), email) else old(db.committed)
      ensures done ==>
        db.committed.tables == old(db.committed.tables).(users := old(db.committed.tables.users) + {email})
    {
      done := db.Exec((d: Db) => WithUser(d, email), ok && email !in db.committed.tables.users);
    }
  }

  class RepositoryRepository {
    const db: Session<Db>

    constructor (db: Session<Db>)
      ensures this.db == db
    {
      this.db := db;
    }

    /** A new name is stored with the tag, an empty one as null; an existing row keeps its own. */
    method GetOrCreate(name: Name, tag: Tag, ok: bool) returns (done: bool)
      requires db.Valid() && !db.open
      modifies db
      ensures db.Valid() && !db.open && done == ok
      ensures db.committed == if done then Registered(old(db.committed), name, tag) else old(db.committed)
      ensures
        var before, rows := old(db.committed), old(db.committed.tables.repositories);
        db.committed ==
          if !ok || name in rows then before
          else before.(tables := before.tables.(repositories := rows[name := if tag == "" then None else Some(tag)]))
    {
      done := db.Exec((d: Db) => Registered(d, name, tag), ok);
    }

    /** No row of that name is an error, too. */
    method UpdateTag(name: Name, tag: Tag, ok: bool) returns (done: bool)
      requires db.Valid() && !db.open
      modifies db
      ensures db.Valid() && !db.open && done == (ok && name in old(db.committed.tables.repositories))
      ensures
        var before, rows := old(db.committed), old(db.committed.tables.repositories);
        db.committed ==
          if done then before.(tables := before.tables.(repositories := rows[name := Some(tag)])) else before
    {
      var known := name in db.committed.tables.repositories;
      done := db.Exec((d: Db) => d.(tables := SubscriptionTables.UpdateTag(d.tables, name, tag)), ok);
      if !known { done := false; }
    }
  }

  class SagaRepository {
    const db: Session<Db>

    constructor (db: Session<Db>)
      ensures this.db == db
    {
      this.db := db;
    }

    method Create(subscriptionId: nat, sagaId: nat, ok: bool) returns (done: bool)
      requires db.Valid() && db.open && !db.aborted
      modifies db
      ensures db.Valid() && db.open && db.committed == old(db.committed) && done == ok && db.aborted == !ok
      ensures done ==> db.pending == Then(old(db.pending), CreatingSaga(sagaId, subscriptionId))
      ensures
        var seen := old(db.Current());
        done ==>
          db.Current() == seen.(tables := seen.tables.(
            sagas := seen.tables.sagas[sagaId := Saga(subscriptionId, Started, SendConfirmation)]))
    {
      done := db.Exec(CreatingSaga(sagaId, subscriptionId), ok);
    }

    /** No such row is an error. */
    method GetByID(sagaId: nat, ok: bool) returns (saga: Option<Saga>)
      ensures
        var sagas := db.Current().tables.sagas;
        saga == if ok && sagaId in sagas then Some(sagas[sagaId]) else None
    {
      return if ok && sagaId in db.Current().tables.sagas then Some(db.Current().tables.sagas[sagaId]) else None;
    }

    method UpdateStatus(sagaId: nat, status: SagaStatus, ok: bool) returns (done: bool)
      requires db.Valid() && db.open && !db.aborted
      modifies db
      ensures db.Valid() && db.open && db.committed == old(db.committed) && done == ok && db.aborted == !ok
      ensures done ==> db.pending == Then(old(db.pending), SettingStatus(sagaId, status))
      ensures
        var seen, sagas := old(db.Current()), old(db.Current()).tables.sagas;
        done ==>
          db.Current() ==
            if sagaId !in sagas then seen
            else seen.(tables := seen.tables.(
              sagas := sagas[sagaId := Saga(sagas[sagaId].subscriptionId, status, sagas[sagaId].step)]))
    {
      done := db.Exec(SettingStatus(sagaId, status), ok);
    }

    method UpdateStatusAndStep(sagaId: nat, status: SagaStatus, step: SagaStep, ok: bool) returns (done: bool)
      requires db.Valid() && !db.open
      modifies db
      ensures db.Valid() && !db.open && done == ok
      ensures
        var before := old(db.committed);
        db.committed ==
          if ok then before.(tables := SubscriptionTables.UpdateStatusAndStep(before.tables, sagaId, status, step))
          else before
      ensures
        var before, sagas := old(db.committed), old(db.committed.tables.sagas);
        done && sagaId in sagas ==>
          db.committed == before.(tables := before.tables.(
            sagas := sagas[sagaId := Saga(sagas[sagaId].subscriptionId, status, step)]))
    {
      done := db.Exec(
        (d: Db) => d.(tables := SubscriptionTables.UpdateStatusAndStep(d.tables, sagaId, status, step)), ok);
    }
  }

  class OutboxRepository {
    const db: Session<Db>

    constructor (db: Session<Db>)
      ensures this.db == db
    {
      this.db := db;
    }

    method Insert(message: Message, rowId: nat, ok: bool) returns (done: bool)
      requires db.Valid() && db.open && !db.aborted
      modifies db
      ensures db.Valid() && db.open && db.committed == old(db.committed) && done == ok && db.aborted == !ok
      ensures done ==> db.pending == Then(old(db.pending), Inserting(rowId, message))
      ensures
        var seen := old(db.Current());
        done ==>
          db.Current() == seen.(outbox := seen.outbox[rowId := Outbox.Row(message, Outbox.Pending, 0)])
    {
      InsertedRow(db.Current(), rowId, message);
      done := db.Exec(Inserting(rowId, message), ok);
    }
  }

  // ----- the orchestrator -----

  /** The saga is STARTED at its first step, its command - for exactly this e-mail, repository, token and subscription -
      waits in the outbox, and nothing else differs. */
  ghost predicate SagaStarted(before: Db, after: Db, subscriptionId: nat, key: Key, token: Token, ids: Ids) {
    && after.tables ==
         before.tables.(sagas := before.tables.sagas[ids.saga := Saga(subscriptionId, Started, SendConfirmation)])
    && ids.row in after.outbox && after.outbox == before.outbox[ids.row := after.outbox[ids.row]]
    && after.outbox[ids.row].status.Pending? && after.outbox[ids.row].attempts == 0
    && var m := after.outbox[ids.row].message;
       && m.Confirmation? && m.command.sagaId == ids.saga && m.command.subscriptionId == subscriptionId
       && m.command.email == key.email && m.command.repo == key.repo && m.command.token == token
  }

  /** What the orchestrator's two statements do. */
  function WithSaga(db: Db, subscriptionId: nat, key: Key, token: Token, ids: Ids): Db {
    Inserting(ids.row, Confirmation(CommandFor(ids.saga, subscriptionId, key, token)))(
      CreatingSaga(ids.saga, subscriptionId)(db))
  }

  lemma InsertedRow(db: Db, rowId: nat, message: Message)
    ensures Inserted(db, rowId, message) == db.outbox[rowId := Outbox.Row(message, Outbox.Pending, 0)]
  {
    var e := Outbox.Entry(rowId, message);
    assert e in [e];
  }

  lemma SagaStartsWithCommand(db: Db, subscriptionId: nat, key: Key, token: Token, ids: Ids)
    ensures SagaStarted(db, WithSaga(db, subscriptionId, key, token, ids), subscriptionId, key, token, ids)
  {
    InsertedRow(CreatingSaga(ids.saga, subscriptionId)(db), ids.row,
                Confirmation(CommandFor(ids.saga, subscriptionId, key, token)));
    hide Inserted;
  }

  lemma SagaAfterUpsert(db: Db, key: Key, id: nat, token: Token, ids: Ids)
    ensures
      WithSaga(Upserting(key, id, token, false)(db), id, key, token, ids) == StoredPending(db, key, id, token, ids)
  {
  }

  /** What the database does for one reply. */
  datatype ReplyLuck = ReplyLuck(beginOk: bool, firstOk: bool, secondOk: bool, commitOk: bool)

  class Orchestrator {
    const db: Session<Db>
    const sagas: SagaRepository
    const subscriptions: SubscriptionRepository
    const outbox: OutboxRepository

    constructor (sagas: SagaRepository, subscriptions: SubscriptionRepository, outbox: OutboxRepository)
      requires sagas.db == subscriptions.db == outbox.db
      ensures this.db == outbox.db && this.sagas == sagas && this.subscriptions == subscriptions
      ensures this.outbox == outbox
      ensures Wired()
    {
      this.db, this.sagas, this.subscriptions, this.outbox := outbox.db, sagas, subscriptions, outbox;
    }

    predicate Wired() {
      sagas.db == db && subscriptions.db == db && outbox.db == db
    }

    /** Runs inside the caller's transaction. */
    method Start(subscriptionId: nat, key: Key, token: Token, ids: Ids, createOk: bool, insertOk: bool)
        returns (done: bool)
      requires Wired() && db.Valid() && db.open && !db.aborted
      modifies db
      ensures db.Valid() && db.open && db.committed == old(db.committed) && done == (createOk && insertOk)
      ensures db.aborted == !done
      ensures
        var message := Confirmation(CommandFor(ids.saga, subscriptionId, key, token));
        done ==>
          db.pending == Then(Then(old(db.pending), CreatingSaga(ids.saga, subscriptionId)), Inserting(ids.row, message))
      ensures done ==> SagaStarted(old(db.Current()), db.Current(), subscriptionId, key, token, ids)
    {
      SagaStartsWithCommand(db.Current(), subscriptionId, key, token, ids);
      done := sagas.Create(subscriptionId, ids.saga, createOk);
      if !done { return; }
      var command := Command(ids.saga, subscriptionId, key.email, key.repo, token);
      done := outbox.Insert(Confirmation(command), ids.row, insertOk);
    }

    method HandleConfirmationReply(reply: Reply, meanwhile: Db -> Db, luck: ReplyLuck) returns (failed: bool)
      requires Wired() && db.Valid() && !db.open
      modifies db
      ensures db.Valid() && !db.open
      ensures failed == ReplyFails(old(db.committed.tables), reply, luck)
      ensures db.committed == ReplyHandled(old(db.committed), meanwhile, reply, luck)
      ensures luck == ReplyLuck(true, true, true, true) && reply.success ==>
        (failed <==> reply.sagaId !in old(db.committed.tables.sagas))
      ensures luck == ReplyLuck(true, true, true, true) && !reply.success ==> !failed
      ensures meanwhile == Same<Db>() ==>
        if failed then db.committed == old(db.committed)
        else if reply.success then Completes(old(db.committed), db.committed, reply.sagaId)
        else Undoes(old(db.committed), db.committed, reply)
    {
      if reply.success {
        failed := StepActivateSubscription(reply, meanwhile, luck);
      } else {
        failed := Compensate(reply, meanwhile, luck);
      }
    }

    /** One read and one update, each on its own; a saga already completed is left alone. */
    method StepActivateSubscription(reply: Reply, meanwhile: Db -> Db, luck: ReplyLuck) returns (failed: bool)
      requires Wired() && db.Valid() && !db.open && reply.success
      modifies db
      ensures db.Valid() && !db.open
      ensures failed == ReplyFails(old(db.committed.tables), reply, luck)
      ensures db.committed == ReplyHandled(old(db.committed), meanwhile, reply, luck)
    {
      var current := sagas.GetByID(reply.sagaId, luck.firstOk);
      if current.None? { return true; }
      if current.value.status == Completed { return false; }
      db.Elapse(meanwhile(db.committed));
      var done := sagas.UpdateStatusAndStep(reply.sagaId, Completed, ActivateSubscription, luck.secondOk);
      return !done;
    }

    /** Deletes the row its DELETE finds and marks the saga, both or neither, whatever the saga's status is. */
    method Compensate(reply: Reply, meanwhile: Db -> Db, luck: ReplyLuck) returns (failed: bool)
      requires Wired() && db.Valid() && !db.open && !reply.success
      modifies db
      ensures db.Valid() && !db.open
      ensures failed == ReplyFails(old(db.committed.tables), reply, luck)
      ensures db.committed == ReplyHandled(old(db.committed), meanwhile, reply, luck)
    {
      var begun := db.Begin(luck.beginOk);
      if !begun { return true; }
      var done := subscriptions.DeleteByID(reply.subscriptionId, luck.firstOk);
      if done {
        db.Elapse(meanwhile(db.committed));
        done := sagas.UpdateStatus(reply.sagaId, Compensated, luck.secondOk);
      }
      if !done {
        db.Rollback();
        return true;
      }
      done := db.Commit(luck.commitOk);
      return !done;
    }
  }

  /** The saga is COMPLETED at its last step, if it was not yet, and nothing else differs. */
  ghost predicate Completes(before: Db, after: Db, sagaId: nat) {
    var sagas := before.tables.sagas;
    && sagaId in sagas
    && after ==
         if sagas[sagaId].status.Completed? then before
         else before.(tables := before.tables.(
           sagas := sagas[sagaId := Saga(sagas[sagaId].subscriptionId, Completed, ActivateSubscription)]))
  }

  /** The row of the reply's subscription is gone, its saga is COMPENSATED at the step it had, and nothing else differs:
      every other row is as before. */
  ghost predicate Undoes(before: Db, after: Db, reply: Reply) {
    var sagas := before.tables.sagas;
    && after.outbox == before.outbox
    && after.tables.users == before.tables.users && after.tables.repositories == before.tables.repositories
    && (forall key :: key in after.tables.subscriptions <==>
          key in before.tables.subscriptions && before.tables.subscriptions[key].id != reply.subscriptionId)
    && (forall key :: key in after.tables.subscriptions ==>
          after.tables.subscriptions[key] == before.tables.subscriptions[key])
    && after.tables.sagas ==
         if reply.sagaId !in sagas then sagas
         else sagas[reply.sagaId := Saga(sagas[reply.sagaId].subscriptionId, Compensated, sagas[reply.sagaId].step)]
  }

  /** Whether handling ends in an error. */
  predicate ReplyFails(t: Tables, reply: Reply, luck: ReplyLuck) {
    if reply.success then
      !luck.firstOk || reply.sagaId !in t.sagas || (t.sagas[reply.sagaId].status != Completed && !luck.secondOk)
    else
      !(luck.beginOk && luck.firstOk && luck.secondOk && luck.commitOk)
  }

  /** Whether handling gets past its first statement, so that others may act before the second. */
  predicate GetsPastFirst(t: Tables, reply: Reply, luck: ReplyLuck) {
    if reply.success then luck.firstOk && reply.sagaId in t.sagas && t.sagas[reply.sagaId].status != Completed
    else luck.beginOk && luck.firstOk
  }

  /** What the database is after a reply. `meanwhile` is what others do between the two statements: between activation's
      read and its write, or between compensation's DELETE and its commit. */
  function ReplyHandled(db: Db, meanwhile: Db -> Db, reply: Reply, luck: ReplyLuck): Db {
    if !GetsPastFirst(db.tables, reply, luck) then db
    else
      var between := meanwhile(db);
      if ReplyFails(db.tables, reply, luck) then between
      else if reply.success then between.(tables := Activate(between.tables, reply.sagaId))
      else between.(tables := CompensateFound(between.tables, reply, HasRow(db.tables, reply.subscriptionId)))
  }

  class SagaResultConsumer {
    const orchestrator: Orchestrator

    constructor (orchestrator: Orchestrator)
      ensures this.orchestrator == orchestrator
    {
      this.orchestrator := orchestrator;
    }

    /** `body` is what the delivery decodes to, if it decodes. */
    method Handle(body: Option<Reply>, meanwhile: Db -> Db, luck: ReplyLuck) returns (settlement: Settlement)
      requires orchestrator.Wired() && orchestrator.db.Valid() && !orchestrator.db.open
      modifies orchestrator.db
      ensures orchestrator.db.Valid() && !orchestrator.db.open
      ensures settlement ==
        if body.None? then Discard
        else if ReplyFails(old(orchestrator.db.committed.tables), body.value, luck) then Requeue
        else Ack
      ensures orchestrator.db.committed ==
        if body.None? then old(orchestrator.db.committed)
        else ReplyHandled(old(orchestrator.db.committed), meanwhile, body.value, luck)
    {
      if body.None? { return Discard; }
      var failed := orchestrator.HandleConfirmationReply(body.value, meanwhile, luck);
      if failed { return Requeue; }
      return Ack;
    }
  }

  // ----- the use case -----

  datatype Result = Done | InvalidToken | Error

  /** What one transaction of two or three statements meets. */
  datatype TxLuck = TxLuck(beginOk: bool, firstOk: bool, secondOk: bool, thirdOk: bool, commitOk: bool)

  /** What other requests do between the reads and the transaction, and between its first statement and its commit. */
  datatype Others = Others(before: Db -> Db, during: Db -> Db)

  /** What comes before the transaction of Subscribe: the tracker's answer, the local row, the user - and what other
      requests do before the user is looked up, and between that and creating it. */
  datatype Preparation = Preparation(
    tracked: Option<Tag>, registerOk: bool, lookupOk: bool, createOk: bool,
    beforeLookup: Db -> Db, beforeCreate: Db -> Db)

  function Registered(db: Db, name: Name, tag: Tag): Db {
    db.(tables := RegisterRepository(db.tables, name, tag))
  }

  function WithUser(db: Db, email: Email): Db {
    db.(tables := db.tables.(users := db.tables.users + {email}))
  }

  /** The row's own id if there is one, otherwise the next of the sequence. */
  function RowId(t: Tables, key: Key, ids: Ids): nat {
    if key in t.subscriptions then t.subscriptions[key].id else ids.subscription
  }

  /** The outbox has the message in a new PENDING row, and the rows it had. */
  ghost predicate Queues(before: Db, after: Db, rowId: nat, message: Message) {
    after.outbox == before.outbox[rowId := Outbox.Row(message, Outbox.Pending, 0)]
  }

  /** After an undisturbed Subscribe: repository and user are known, the row of `key` is unconfirmed with this token,
      its saga and command are there, and nothing else differs. */
  ghost predicate Subscribed(before: Db, after: Db, key: Key, token: Token, tag: Tag, ids: Ids) {
    var t, id := before.tables, RowId(before.tables, key, ids);
    && after.tables == Tables(
         t.users + {key.email},
         if key.repo in t.repositories then t.repositories
         else t.repositories[key.repo := if tag == "" then None else Some(tag)],
         t.subscriptions[key := Subscription(id, token, false)],
         t.sagas[ids.saga := Saga(id, Started, SendConfirmation)])
    && Queues(before, after, ids.row, Confirmation(Command(ids.saga, id, key.email, key.repo, token)))
  }

  /** After an undisturbed Confirm: the row is confirmed under this token and its event queued, and nothing else
      differs. */
  ghost predicate ConfirmedAs(before: Db, after: Db, key: Key, token: Token, ids: Ids) {
    var t := before.tables;
    && after.tables ==
         t.(subscriptions := t.subscriptions[key := Subscription(RowId(t, key, ids), token, true)])
    && Queues(before, after, ids.row, Activated(key, token))
  }

  /** After an undisturbed unsubscription: the row is gone and the event queued, and nothing else differs. */
  ghost predicate Left(before: Db, after: Db, key: Key, ids: Ids) {
    && after.tables == before.tables.(subscriptions := before.tables.subscriptions - {key})
    && Queues(before, after, ids.row, Unsubscribed(key))
  }

  lemma ConfirmedIsStored(start: Db, key: Key, token: Token, ids: Ids)
    ensures ConfirmedAs(start, StoredConfirmed(start, key, SavedId(start.tables, key, ids.subscription), token, ids),
                        key, token, ids)
  {
    InsertedRow(start, ids.row, Activated(key, token));
    hide Inserted;
  }

  lemma LeftIsStored(start: Db, key: Key, ids: Ids)
    ensures Left(start, StoredRemoval(start, key, key in start.tables.subscriptions, ids), key, ids)
  {
    InsertedRow(start, ids.row, Unsubscribed(key));
    hide Inserted;
    if key !in start.tables.subscriptions {
      assert start.tables.subscriptions - {key} == start.tables.subscriptions;
    }
  }

  datatype Prepared = Prepared(ready: bool, db: Db)

  /** Subscribe up to its transaction. A user that others register between the lookup and the creation makes the
      creation fail, and with it the call. */
  function Prepare(start: Db, key: Key, before: Preparation): (p: Prepared)
    ensures p.ready ==> key.email in p.db.tables.users
    ensures before.beforeLookup == before.beforeCreate == Same<Db>() ==>
      p.ready == (before.tracked.Some? && before.registerOk && before.lookupOk
                  && (key.email in start.tables.users || before.createOk))
  {
    if before.tracked.None? || !before.registerOk then Prepared(false, start)
    else
      var known := before.beforeLookup(Registered(start, key.repo, before.tracked.value));
      if !before.lookupOk then Prepared(false, known)
      else if key.email in known.tables.users then Prepared(true, known)
      else
        var unknown := before.beforeCreate(known);
        if before.createOk && key.email !in unknown.tables.users then Prepared(true, WithUser(unknown, key.email))
        else Prepared(false, unknown)
  }

  lemma SubscribedIsStored(start: Db, key: Key, token: Token, before: Preparation, ids: Ids)
    requires before.beforeLookup == before.beforeCreate == Same<Db>()
    requires before.tracked.Some? && before.registerOk && before.lookupOk && before.createOk
    requires NobodyElseBears(start.tables, key, token)
    ensures
      var ready := Prepare(start, key, before).db;
      && CanSave(ready.tables, key, token)
      && Subscribed(start, StoredPending(ready, key, SavedId(ready.tables, key, ids.subscription), token, ids),
                    key, token, before.tracked.value, ids)
  {
    var ready := Prepare(start, key, before).db;
    InsertedRow(ready, ids.row,
                Confirmation(CommandFor(ids.saga, SavedId(ready.tables, key, ids.subscription), key, token)));
    hide Inserted;
    assert start.tables.users + {key.email} == ready.tables.users;
  }

  /** A call that fails leaves nothing of its own: only what others did until then. */
  predicate OnlyOthers(start: Db, others: Others, db: Db) {
    db == start || db == others.before(start) || db == others.during(others.before(start))
  }

  class UserUseCase {
    const db: Session<Db>
    const subscriptions: SubscriptionRepository
    const users: UserRepository
    const repositories: RepositoryRepository
    const orchestrator: Orchestrator
    const outbox: OutboxRepository

    constructor (subscriptions: SubscriptionRepository, users: UserRepository, repositories: RepositoryRepository,
                 orchestrator: Orchestrator, outbox: OutboxRepository)
      requires subscriptions.db == users.db == repositories.db == orchestrator.db == outbox.db && orchestrator.Wired()
      ensures this.db == outbox.db && this.subscriptions == subscriptions && this.users == users
      ensures this.repositories == repositories && this.orchestrator == orchestrator && this.outbox == outbox && Wired()
    {
      this.db, this.subscriptions, this.users := outbox.db, subscriptions, users;
      this.repositories, this.orchestrator, this.outbox := repositories, orchestrator, outbox;
    }

    predicate Wired() {
      && subscriptions.db == db && users.db == db && repositories.db == db && outbox.db == db
      && orchestrator.db == db && orchestrator.Wired()
    }

    /** Registers the repository and the user first, each on its own; then a transaction stores the unconfirmed row, its
        saga and its command, all or nothing. */
    method Subscribe(key: Key, token: Token, ids: Ids, before: Preparation, others: Others, luck: TxLuck)
        returns (r: Result)
      requires Wired() && db.Valid() && !db.open
      modifies db
      ensures db.Valid() && !db.open && !r.InvalidToken?
      ensures
        var prepared := Prepare(old(db.committed), key, before);
        var ready := others.before(prepared.db);
        && (r.Done? <==>
              && prepared.ready && luck.beginOk && luck.firstOk && luck.secondOk && luck.thirdOk && luck.commitOk
              && CanSave(ready.tables, key, token))
        && (r.Done? ==>
              var id := SavedId(ready.tables, key, ids.subscription);
              db.committed == StoredPending(others.during(ready), key, id, token, ids))
        && (!prepared.ready ==> db.committed == prepared.db)
        && (!r.Done? && prepared.ready ==> OnlyOthers(prepared.db, others, db.committed))
      ensures
        var start := old(db.committed);
        && before.beforeLookup == before.beforeCreate == others.before == others.during == Same<Db>()
        && before.tracked.Some? && before.registerOk && before.lookupOk && before.createOk
        && luck.beginOk && luck.firstOk && luck.secondOk && luck.thirdOk && luck.commitOk
        && NobodyElseBears(start.tables, key, token) ==>
          r.Done? && Subscribed(start, db.committed, key, token, before.tracked.value, ids)
    {
      if before.tracked.None? { return Error; }
      var done := repositories.GetOrCreate(key.repo, before.tracked.value, before.registerOk);
      if !done { return Error; }
      db.Elapse(before.beforeLookup(db.committed));
      var user := users.GetByEmail(key.email, before.lookupOk);
      if user.None? { return Error; }
      if !user.value {
        db.Elapse(before.beforeCreate(db.committed));
        done := users.Create(key.email, before.createOk);
        if !done { return Error; }
      }
      assert db.committed == Prepare(old(db.committed), key, before).db;
      db.Elapse(others.before(db.committed));
      r := StorePending(key, token, ids, others.during, luck);
      if before.beforeLookup == before.beforeCreate == Same<Db>() && before.createOk {
        if NobodyElseBears(old(db.committed.tables), key, token) {
          SubscribedIsStored(old(db.committed), key, token, before, ids);
        }
      }
    }

    /** The transaction of Subscribe. The id of the row is settled before `during`. */
    method StorePending(key: Key, token: Token, ids: Ids, during: Db -> Db, luck: TxLuck) returns (r: Result)
      requires Wired() && db.Valid() && !db.open
      modifies db
      ensures db.Valid() && !db.open && !r.InvalidToken?
      ensures r.Done? <==>
        && luck.beginOk && luck.firstOk && luck.secondOk && luck.thirdOk && luck.commitOk
        && CanSave(old(db.committed.tables), key, token)
      ensures
        var start := old(db.committed);
        if r.Done? then
          db.committed == StoredPending(during(start), key, SavedId(start.tables, key, ids.subscription), token, ids)
        else
          db.committed == start || db.committed == during(start)
    {
      var begun := db.Begin(luck.beginOk);
      if !begun { return Error; }
      var done := WritePending(key, token, ids, during, luck);
      if !done {
        db.Rollback();
        return Error;
      }
      done := db.Commit(luck.commitOk);
      return if done then Done else Error;
    }

    /** The statements of that transaction. */
    method WritePending(key: Key, token: Token, ids: Ids, during: Db -> Db, luck: TxLuck) returns (done: bool)
      requires Wired() && db.Valid() && db.open && !db.aborted && db.pending == Same<Db>()
      modifies db
      ensures db.Valid() && db.open && db.aborted == !done
      ensures done == (luck.firstOk && luck.secondOk && luck.thirdOk && CanSave(old(db.committed.tables), key, token))
      ensures
        var start := old(db.committed);
        && (db.committed == during(start) || (!done && db.committed == start))
        && (done ==>
              db.pending(db.committed)
              == StoredPending(db.committed, key, SavedId(start.tables, key, ids.subscription), token, ids))
    {
      hide SagaStarted;
      var id := subscriptions.Save(key, token, false, ids.subscription, luck.firstOk);
      if id.None? { return false; }
      db.Elapse(during(db.committed));
      done := orchestrator.Start(id.value, key, token, ids, luck.secondOk, luck.thirdOk);
      SagaAfterUpsert(db.committed, key, id.value, token, ids);
    }

    /** Reads the row of the token, then stores it as confirmed, with that token, in a transaction of its own - also if
        the row was deleted or given another token in between. */
    method Confirm(token: Token, ids: Ids, readOk: bool, others: Others, luck: TxLuck)
        returns (r: Result, ghost key: Option<Key>)
      requires Wired() && db.Valid() && !db.open
      modifies db
      ensures db.Valid() && !db.open
      ensures r.InvalidToken? <==> token == "" || (readOk && !Known(old(db.committed.tables), token))
      ensures key.Some? <==> token != "" && readOk && Known(old(db.committed.tables), token)
      ensures key.Some? ==> Bears(old(db.committed.tables), key.value, token)
      ensures
        var ready := others.before(old(db.committed));
        && (r.Done? <==>
              && key.Some? && luck.beginOk && luck.firstOk && luck.secondOk && luck.commitOk
              && CanSave(ready.tables, key.value, token))
        && (r.Done? ==>
              var id := SavedId(ready.tables, key.value, ids.subscription);
              db.committed == StoredConfirmed(others.during(ready), key.value, id, token, ids))
      ensures !r.Done? ==> OnlyOthers(old(db.committed), others, db.committed)
      ensures
        var start := old(db.committed);
        && others.before == others.during == Same<Db>() && key.Some?
        && luck.beginOk && luck.firstOk && luck.secondOk && luck.commitOk
        && key.value.email in start.tables.users && key.value.repo in start.tables.repositories
        && NobodyElseBears(start.tables, key.value, token) ==>
          r.Done? && ConfirmedAs(start, db.committed, key.value, token, ids)
    {
      key := None;
      if token == "" { return InvalidToken, None; }
      var sub := subscriptions.GetByToken(token, readOk);
      if sub.NotFound? { return InvalidToken, None; }
      if sub.Failed? { return Error, None; }
      key := Some(sub.key);
      db.Elapse(others.before(db.committed));
      var begun := db.Begin(luck.beginOk);
      if !begun { return Error, key; }
      var id := subscriptions.Save(sub.key, token, true, ids.subscription, luck.firstOk);
      var done := id.Some?;
      if done {
        db.Elapse(others.during(db.committed));
        done := outbox.Insert(Activated(sub.key, token), ids.row, luck.secondOk);
      }
      if !done {
        db.Rollback();
        return Error, key;
      }
      done := db.Commit(luck.commitOk);
      ConfirmedIsStored(old(db.committed), sub.key, token, ids);
      return if done then Done else Error, key;
    }

    /** An unknown user is no error, and nothing is stored. Otherwise the event is written even if the DELETE found no
        row. */
    method Unsubscribe(key: Key, ids: Ids, lookupOk: bool, others: Others, luck: TxLuck) returns (r: Result)
      requires Wired() && db.Valid() && !db.open
      modifies db
      ensures db.Valid() && !db.open && !r.InvalidToken?
      ensures
        var start := old(db.committed);
        var known := lookupOk && key.email in start.tables.users;
        var done := luck.beginOk && luck.firstOk && luck.secondOk && luck.commitOk;
        var ready := others.before(start);
        && (r.Done? <==> lookupOk && (known ==> done))
        && (!known ==> db.committed == start)
        && (known && done ==>
              db.committed == StoredRemoval(others.during(ready), key, key in ready.tables.subscriptions, ids))
        && (known && !done ==> OnlyOthers(start, others, db.committed))
        && (known && r.Done? && others.before == others.during == Same<Db>() ==> Left(start, db.committed, key, ids))
    {
      var user := users.GetByEmail(key.email, lookupOk);
      if user.None? { return Error; }
      if !user.value { return Done; }
      db.Elapse(others.before(db.committed));
      r := Leave(key, ids, others.during, luck);
      LeftIsStored(old(db.committed), key, ids);
    }

    method UnsubscribeByToken(token: Token, ids: Ids, readOk: bool, others: Others, luck: TxLuck)
        returns (r: Result, ghost key: Option<Key>)
      requires Wired() && db.Valid() && !db.open
      modifies db
      ensures db.Valid() && !db.open
      ensures r.InvalidToken? <==> token == "" || (readOk && !Known(old(db.committed.tables), token))
      ensures key.Some? <==> token != "" && readOk && Known(old(db.committed.tables), token)
      ensures key.Some? ==> Bears(old(db.committed.tables), key.value, token)
      ensures r.Done? <==> key.Some? && luck.beginOk && luck.firstOk && luck.secondOk && luck.commitOk
      ensures
        var ready := others.before(old(db.committed));
        r.Done? ==>
          db.committed == StoredRemoval(others.during(ready), key.value, key.value in ready.tables.subscriptions, ids)
      ensures !r.Done? ==> OnlyOthers(old(db.committed), others, db.committed)
      ensures r.Done? && others.before == others.during == Same<Db>() ==>
        Left(old(db.committed), db.committed, key.value, ids)
    {
      key := None;
      if token == "" { return InvalidToken, None; }
      var sub := subscriptions.GetByToken(token, readOk);
      if sub.NotFound? { return InvalidToken, None; }
      if sub.Failed? { return Error, None; }
      key := Some(sub.key);
      db.Elapse(others.before(db.committed));
      r := Leave(sub.key, ids, others.during, luck);
      LeftIsStored(old(db.committed), sub.key, ids);
    }

    /** The transaction both ways of unsubscribing end with. Which row it deletes is settled before `during`. */
    method Leave(key: Key, ids: Ids, during: Db -> Db, luck: TxLuck) returns (r: Result)
      requires Wired() && db.Valid() && !db.open
      modifies db
      ensures db.Valid() && !db.open && !r.InvalidToken?
      ensures r.Done? == (luck.beginOk && luck.firstOk && luck.secondOk && luck.commitOk)
      ensures
        var start := old(db.committed);
        if r.Done? then db.committed == StoredRemoval(during(start), key, key in start.tables.subscriptions, ids)
        else db.committed == start || db.committed == during(start)
    {
      var begun := db.Begin(luck.beginOk);
      if !begun { return Error; }
      var done := subscriptions.Delete(key, luck.firstOk);
      if done {
        db.Elapse(during(db.committed));
        done := outbox.Insert(Unsubscribed(key), ids.row, luck.secondOk);
      }
      if !done {
        db.Rollback();
        return Error;
      }
      done := db.Commit(luck.commitOk);
      return if done then Done else Error;
    }
  }
}
