/** With handlers run one at a time, the tracker's tables are a plain map. */
module TrackerReplica {
  import opened Contracts
  import opened Replay
  import opened TrackerTables

  lemma CreateShows(t: Tables, m: Subscribers, name: Name, id: nat, tag: Tag)
    requires Shows(t, m) && name !in t.repositories && !HasId(t, id)
    ensures Shows(Create(t, name, id, tag), m)
  {
    var u := Create(t, name, id, tag);
    forall p | p in u.subscriptions ensures HasId(u, p.repositoryId) && p.repositoryId != id {
      var n :| n in t.repositories && t.repositories[n].id == p.repositoryId;
      assert n in u.repositories;
    }
  }

  lemma UpsertShows(t: Tables, m: Subscribers, key: Key, token: Token)
    requires Shows(t, m) && key.repo in t.repositories
    ensures Shows(Upsert(t, t.repositories[key.repo].id, key.email, token), m[key := token])
  {
    var u := Upsert(t, t.repositories[key.repo].id, key.email, token);
    assert forall id :: HasId(t, id) <==> HasId(u, id);
    assert HasId(t, t.repositories[key.repo].id);
  }

  lemma DeleteSubscriptionShows(t: Tables, m: Subscribers, key: Key)
    requires Shows(t, m)
    ensures Shows(DeleteSubscription(t, key), m - {key})
  {
    assert forall id :: HasId(t, id) <==> HasId(DeleteSubscription(t, key), id);
  }

  lemma DeleteRepositoryIsWellFormed(t: Tables, name: Name)
    requires WellFormed(t)
    ensures WellFormed(DeleteRepository(t, name))
  {
    var u := DeleteRepository(t, name);
    forall p | p in u.subscriptions ensures HasId(u, p.repositoryId) {
      var n :| n in t.repositories && t.repositories[n].id == p.repositoryId;
      assert n in u.repositories;
    }
  }

  lemma DeleteRepositoryShows(t: Tables, m: Subscribers, name: Name)
    requires Shows(t, m) && !HasSubscriptions(t, name)
    ensures Shows(DeleteRepository(t, name), m)
  {
    DeleteRepositoryIsWellFormed(t, name);
  }

  /** An activation updates the map when its last statement runs, whatever the repository table held before. */
  lemma ActivationUpdates(t: Tables, m: Subscribers, key: Key, token: Token, id: nat, tag: Tag, statements: nat)
    requires Shows(t, m) && !HasId(t, id) && statements <= 2
    ensures Shows(Activation(t, key, token, id, tag, statements), if statements == 2 then m[key := token] else m)
  {
    if key.repo !in t.repositories { CreateShows(t, m, key.repo, id, tag); }
    if statements == 2 { UpsertShows(Activation(t, key, token, id, tag, 1), m, key, token); }
  }

  /** An unsubscription removes one key with its first statement; the repository row goes with its last subscriber
      and takes nobody else along. */
  lemma UnsubscriptionRemoves(t: Tables, m: Subscribers, key: Key, statements: nat)
    requires Shows(t, m) && statements <= 2
    ensures Shows(Unsubscription(t, key, statements), if statements == 0 then m else m - {key})
    ensures statements == 2 ==>
      (key.repo in Unsubscription(t, key, 2).repositories <==> HasSubscriptions(DeleteSubscription(t, key), key.repo))
  {
    DeleteSubscriptionShows(t, m, key);
    if !HasSubscriptions(DeleteSubscription(t, key), key.repo) {
      DeleteRepositoryShows(DeleteSubscription(t, key), m - {key}, key.repo);
    }
  }

  /** Stopping the activation handler after any statement and delivering the event again leaves the map one full run
      leaves. */
  lemma ActivationRedelivered(t: Tables, m: Subscribers, key: Key, token: Token,
      id: nat, tag: Tag, stopped: nat, id': nat, tag': Tag)
    requires Shows(t, m) && !HasId(t, id) && stopped <= 2
    requires !HasId(Activation(t, key, token, id, tag, stopped), id')
    ensures Shows(Activation(t, key, token, id, tag, 2), m[key := token])
    ensures Shows(Activation(Activation(t, key, token, id, tag, stopped), key, token, id', tag', 2), m[key := token])
  {
    hide Shows, HasId;
    var partial, n := Activation(t, key, token, id, tag, stopped), if stopped == 2 then m[key := token] else m;
    ActivationUpdates(t, m, key, token, id, tag, 2);
    ActivationUpdates(t, m, key, token, id, tag, stopped);
    ActivationUpdates(partial, n, key, token, id', tag', 2);
    assert n[key := token] == m[key := token];
  }

  lemma UnsubscriptionRedelivered(t: Tables, m: Subscribers, key: Key, stopped: nat)
    requires Shows(t, m) && stopped <= 2
    ensures Shows(Unsubscription(t, key, 2), m - {key})
    ensures Shows(Unsubscription(Unsubscription(t, key, stopped), key, 2), m - {key})
  {
    var partial, n := Unsubscription(t, key, stopped), if stopped == 0 then m else m - {key};
    UnsubscriptionRemoves(t, m, key, 2);
    UnsubscriptionRemoves(t, m, key, stopped);
    UnsubscriptionRemoves(partial, n, key, 2);
    assert n - {key} == m - {key};
  }

  // ----- whole runs -----

  /** One delivery: the event, where the handler stopped, and the id and tag a new repository row would get. */
  datatype Delivery = Delivery(event: Message, statements: nat, id: nat, tag: Tag)

  ghost predicate Possible(t: Tables, d: Delivery) {
    d.statements <= 2 && !HasId(t, d.id)
  }

  function Handle(t: Tables, d: Delivery): Tables
    requires d.statements <= 2
  {
    match d.event
    case Activated(key, token) => Activation(t, key, token, d.id, d.tag, d.statements)
    case Unsubscribed(key) => Unsubscription(t, key, d.statements)
    case _ => t
  }

  ghost predicate Handled(t: Tables, ds: seq<Delivery>, u: Tables)
    decreases |ds|
  {
    if ds == [] then u == t else Possible(t, ds[0]) && Handled(Handle(t, ds[0]), ds[1..], u)
  }

  /** The statement that changes the map was reached. */
  predicate TookEffect(d: Delivery) {
    match d.event
    case Activated(_, _) => d.statements == 2
    case Unsubscribed(_) => d.statements >= 1
    case _ => false
  }

  function Effects(ds: seq<Delivery>): seq<Message>
    decreases |ds|
  {
    if ds == [] then []
    else Effects(ds[..|ds| - 1]) + if TookEffect(ds[|ds| - 1]) then [ds[|ds| - 1].event] else []
  }

  lemma OneDelivery(t: Tables, m: Subscribers, d: Delivery)
    requires Shows(t, m) && Possible(t, d)
    ensures Shows(Handle(t, d), if TookEffect(d) then Apply(m, d.event) else m)
  {
    match d.event
    case Activated(key, token) => ActivationUpdates(t, m, key, token, d.id, d.tag, d.statements);
    case Unsubscribed(key) => UnsubscriptionRemoves(t, m, key, d.statements);
    case _ =>
  }

  lemma {:induction false} HandledSplit(t: Tables, ds: seq<Delivery>, u: Tables) returns (v: Tables)
    requires ds != [] && Handled(t, ds, u)
    ensures Handled(t, ds[..|ds| - 1], v) && Possible(v, ds[|ds| - 1]) && u == Handle(v, ds[|ds| - 1])
    decreases |ds|
  {
    if |ds| == 1 {
      v := t;
      assert Handled(Handle(t, ds[0]), ds[1..], u);
    } else {
      v := HandledSplit(Handle(t, ds[0]), ds[1..], u);
      assert ds[1..][..|ds| - 2] == ds[..|ds| - 1][1..];
    }
  }

  /** The tracker tables refine a map from (e-mail, repository) to token: over any sequence of deliveries - repeated,
      stopped half-way, repositories coming and going under new ids - they show what the effective events make of a
      map. */
  lemma {:induction false} RefinesMap(t: Tables, m: Subscribers, ds: seq<Delivery>, u: Tables)
    requires Shows(t, m) && Handled(t, ds, u)
    ensures Shows(u, ApplyAll(m, Effects(ds)))
    decreases |ds|
  {
    if ds != [] {
      var v := HandledSplit(t, ds, u);
      var before, last := Effects(ds[..|ds| - 1]), ds[|ds| - 1];
      RefinesMap(t, m, ds[..|ds| - 1], v);
      OneDelivery(v, ApplyAll(m, before), last);
      if TookEffect(last) { ApplyOneMore(m, before, last.event); } else { assert Effects(ds) == before; }
    }
  }
}
