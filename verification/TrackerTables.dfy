/** The tracker's two tables, its statements, and the two event handlers run one at a time. */
module TrackerTables {
  import opened Contracts
  import opened Replay

  datatype Repository = Repository(id: nat, tag: Tag)

  /** A subscriber row, unique by repository id and e-mail. */
  datatype Place = Place(repositoryId: nat, email: Email)

  datatype Subscriber = Subscriber(email: Email, token: Token)

  /** Repositories by their unique full name. */
  datatype Tables = Tables(repositories: map<Name, Repository>, subscriptions: map<Place, Token>)

  /** Serial ids are unique and every subscriber row refers to a repository. */
  ghost predicate WellFormed(t: Tables) {
    && (forall m, n | m in t.repositories && n in t.repositories ::
          t.repositories[m].id == t.repositories[n].id ==> m == n)
    && (forall p :: p in t.subscriptions ==> HasId(t, p.repositoryId))
  }

  predicate HasId(t: Tables, id: nat) {
    exists n :: n in t.repositories && t.repositories[n].id == id
  }

  // ----- statements -----

  function Create(t: Tables, name: Name, id: nat, tag: Tag): Tables {
    t.(repositories := t.repositories[name := Repository(id, tag)])
  }

  function Upsert(t: Tables, id: nat, email: Email, token: Token): Tables {
    t.(subscriptions := t.subscriptions[Place(id, email) := token])
  }

  function DeleteSubscription(t: Tables, key: Key): Tables {
    if key.repo in t.repositories
    then t.(subscriptions := t.subscriptions - {Place(t.repositories[key.repo].id, key.email)})
    else t
  }

  predicate HasSubscriptions(t: Tables, name: Name) {
    name in t.repositories && exists p :: p in t.subscriptions && p.repositoryId == t.repositories[name].id
  }

  /** Deleting a repository deletes its subscriber rows. */
  function DeleteRepository(t: Tables, name: Name): Tables {
    if name in t.repositories then
      var id := t.repositories[name].id;
      Tables(t.repositories - {name},
             map p | p in t.subscriptions && p.repositoryId != id :: t.subscriptions[p])
    else t
  }

  function SetTag(t: Tables, id: nat, tag: Tag): Tables {
    t.(repositories := map n | n in t.repositories ::
                         if t.repositories[n].id == id then Repository(id, tag) else t.repositories[n])
  }

  // ----- the tables as a map -----

  /** Joined over the repository id, the tables are the map `m`. */
  ghost predicate Shows(t: Tables, m: Subscribers) {
    && WellFormed(t)
    && (forall key: Key :: key in m <==>
          key.repo in t.repositories && Place(t.repositories[key.repo].id, key.email) in t.subscriptions)
    && (forall key: Key :: key in m ==> m[key] == t.subscriptions[Place(t.repositories[key.repo].id, key.email)])
  }

  /** Well-formed tables are exactly one map. */
  lemma ShowsOneMap(t: Tables) returns (m: Subscribers)
    requires WellFormed(t)
    ensures Shows(t, m) && forall n :: Shows(t, n) ==> n == m
  {
    m := map n, p | n in t.repositories && p in t.subscriptions && p.repositoryId == t.repositories[n].id ::
           Key(p.email, n) := t.subscriptions[p];
    forall key: Key
      | key.repo in t.repositories && Place(t.repositories[key.repo].id, key.email) in t.subscriptions
      ensures key in m
    {
      var p := Place(t.repositories[key.repo].id, key.email);
      assert Key(p.email, key.repo) == key;
    }
  }

  // ----- the handlers -----

  /** The activation handler stopped after `statements` statements; `id` and `tag` are used if it creates the
      repository. */
  function Activation(t: Tables, key: Key, token: Token, id: nat, tag: Tag, statements: nat): Tables
    requires statements <= 2
  {
    if statements == 0 then t
    else
      var found := if key.repo in t.repositories then t else Create(t, key.repo, id, tag);
      if statements == 1 then found else Upsert(found, found.repositories[key.repo].id, key.email, token)
  }

  /** The unsubscription handler stopped after `statements` statements. */
  function Unsubscription(t: Tables, key: Key, statements: nat): Tables
    requires statements <= 2
  {
    if statements == 0 then t
    else
      var deleted := DeleteSubscription(t, key);
      if statements == 1 || HasSubscriptions(deleted, key.repo) then deleted else DeleteRepository(deleted, key.repo)
  }
}
