/** The subscription service's tables and what its statements do to them.

    Users and repositories are never deleted or renamed here and their e-mail and full name are unique,
    so these identify them; subscriptions and sagas carry the serial ids the protocol relies on. */
module SubscriptionTables {
  import opened Contracts

  datatype SagaStatus = Started | Completed | Compensated

  datatype SagaStep = SendConfirmation | ActivateSubscription

  datatype Saga = Saga(subscriptionId: nat, status: SagaStatus, step: SagaStep)

  datatype Subscription = Subscription(id: nat, token: Token, confirmed: bool)

  datatype Tables = Tables(
    users: set<Email>,
    repositories: map<Name, Option<Tag>>,
    subscriptions: map<Key, Subscription>,
    sagas: map<nat, Saga>)

  predicate HasRow(t: Tables, subscriptionId: nat) {
    exists key :: key in t.subscriptions && t.subscriptions[key].id == subscriptionId
  }

  // ----- statements -----

  /** The id the upsert returns: the row's own if there is one, otherwise the next of the sequence. */
  function SavedId(t: Tables, key: Key, freshId: nat): nat {
    if key in t.subscriptions then t.subscriptions[key].id else freshId
  }

  /** The effect of an upsert that returned `id`. */
  function Put(t: Tables, key: Key, id: nat, token: Token, confirmed: bool): Tables {
    t.(subscriptions := t.subscriptions[key := Subscription(id, token, confirmed)])
  }

  function Delete(t: Tables, key: Key): Tables {
    t.(subscriptions := t.subscriptions - {key})
  }

  /** The effect of a DELETE that did or did not find the row. */
  function Unput(t: Tables, key: Key, found: bool): Tables {
    if found then Delete(t, key) else t
  }

  function DeleteById(t: Tables, id: nat): Tables {
    t.(subscriptions := map key | key in t.subscriptions && t.subscriptions[key].id != id :: t.subscriptions[key])
  }

  lemma NoRowToDelete(t: Tables, id: nat)
    requires !HasRow(t, id)
    ensures DeleteById(t, id) == t
  {
    forall key | key in t.subscriptions ensures t.subscriptions[key].id != id { }
    assert DeleteById(t, id).subscriptions == t.subscriptions;
  }

  function CreateSaga(t: Tables, sagaId: nat, subscriptionId: nat): Tables {
    t.(sagas := t.sagas[sagaId := Saga(subscriptionId, Started, SendConfirmation)])
  }

  function UpdateStatus(t: Tables, sagaId: nat, status: SagaStatus): Tables {
    if sagaId in t.sagas then t.(sagas := t.sagas[sagaId := t.sagas[sagaId].(status := status)]) else t
  }

  function UpdateStatusAndStep(t: Tables, sagaId: nat, status: SagaStatus, step: SagaStep): Tables {
    if sagaId in t.sagas then t.(sagas := t.sagas[sagaId := t.sagas[sagaId].(status := status, step := step)]) else t
  }

  /** An empty tag is stored as null; an existing row is left as it is. */
  function RegisterRepository(t: Tables, name: Name, tag: Tag): Tables {
    if name in t.repositories then t
    else t.(repositories := t.repositories[name := if tag == "" then None else Some(tag)])
  }

  function UpdateTag(t: Tables, name: Name, tag: Tag): Tables {
    if name in t.repositories then t.(repositories := t.repositories[name := Some(tag)]) else t
  }

  // ----- the orchestrator's transactions -----

  function CommandFor(sagaId: nat, subscriptionId: nat, key: Key, token: Token): Command {
    Command(sagaId, subscriptionId, key.email, key.repo, token)
  }

  function ReplyTo(c: Command, success: bool): Reply {
    Reply(c.sagaId, c.subscriptionId, success, c.email, c.repo, c.token)
  }

  function Activate(t: Tables, sagaId: nat): Tables {
    UpdateStatusAndStep(t, sagaId, Completed, ActivateSubscription)
  }

  function Compensate(t: Tables, reply: Reply): Tables {
    UpdateStatus(DeleteById(t, reply.subscriptionId), reply.sagaId, Compensated)
  }

  /** The transaction of compensation, whose DELETE did or did not find the row. */
  function CompensateFound(t: Tables, reply: Reply, found: bool): Tables {
    UpdateStatus(if found then DeleteById(t, reply.subscriptionId) else t, reply.sagaId, Compensated)
  }

  /** A reply handled without any failure. A success for an unknown saga is an error and changes nothing. */
  function HandleReply(t: Tables, reply: Reply): Tables {
    if !reply.success then Compensate(t, reply)
    else if reply.sagaId !in t.sagas || t.sagas[reply.sagaId].status.Completed? then t
    else Activate(t, reply.sagaId)
  }
}
