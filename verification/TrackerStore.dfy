/** The tracker's repositories over its database, its use case for repositories and its two event consumers.

    Arguments of type `Db -> Db` are what other requests do to the database between two statements. */
module TrackerStore {
  import opened Contracts
  import opened Storage
  import opened TrackerTables
  import opened CachedReads
  import Tracker

  /** The tables, and the messages inserted into the outbox in order. */
  datatype Db = Db(tables: Tables, outbox: seq<Message>)

  function TagSetting(id: nat, tag: Tag): Db -> Db {
    (db: Db) => db.(tables := SetTag(db.tables, id, tag))
  }

  function Dropped(db: Db, name: Name): Db {
    db.(tables := DeleteRepository(db.tables, name))
  }

  function Removed(db: Db, key: Key): Db {
    db.(tables := DeleteSubscription(db.tables, key))
  }

  function Upserted(db: Db, id: nat, email: Email, token: Token): Db {
    db.(tables := TrackerTables.Upsert(db.tables, id, email, token))
  }

  function Created(db: Db, name: Name, id: nat, tag: Tag): Db {
    db.(tables := TrackerTables.Create(db.tables, name, id, tag))
  }

  datatype Lookup = Found(repository: Repository) | NotFound | Failed

  class RepositoryRepository {
    const db: Session<Db>

    constructor (db: Session<Db>)
      ensures this.db == db
    {
      this.db := db;
    }

    /** Every repository that has subscribers, each once. */
    method GetAll(ok: bool) returns (repos: Option<seq<Tracker.Snapshot>>)
      ensures repos.Some? == ok
      ensures ok ==> Tracker.ListsActive(db.committed.tables, repos.value)
      ensures
        var t := db.committed.tables;
        ok ==> forall n :: n in t.repositories ==>
          (Tracker.Snapshot(t.repositories[n].id, n, t.repositories[n].tag) in repos.value
           <==> exists p :: p in t.subscriptions && p.repositoryId == t.repositories[n].id)
    {
      if !ok { return None; }
      var t := db.committed.tables;
      var rest, found: seq<Tracker.Snapshot> := t.repositories.Keys, [];
      while rest != {}
        invariant rest <= t.repositories.Keys
        invariant forall i, j :: 0 <= i < j < |found| ==> found[i].name != found[j].name
        invariant forall s :: s in found ==> Tracker.IsActive(t, s) && s.name !in rest
        invariant forall n :: n in t.repositories && n !in rest && HasSubscriptions(t, n) ==>
                    Tracker.Snapshot(t.repositories[n].id, n, t.repositories[n].tag) in found
        decreases rest
      {
        var n :| n in rest;
        if HasSubscriptions(t, n) {
          found := found + [Tracker.Snapshot(t.repositories[n].id, n, t.repositories[n].tag)];
        }
        rest := rest - {n};
      }
      return Some(found);
    }

    method GetByName(name: Name, ok: bool) returns (r: Lookup)
      ensures r ==
        if !ok then Failed
        else if name in db.committed.tables.repositories then Found(db.committed.tables.repositories[name])
        else NotFound
    {
      if !ok { return Failed; }
      if name in db.committed.tables.repositories { return Found(db.committed.tables.repositories[name]); }
      return NotFound;
    }

    /** `id` is the next of the sequence. A second row of the same name violates the unique constraint. */
    method Create(name: Name, tag: Tag, id: nat, ok: bool) returns (r: Option<Repository>)
      requires db.Valid() && !db.open
      modifies db
      ensures db.Valid() && !db.open
      ensures r == if ok && name !in old(db.committed.tables.repositories) then Some(Repository(id, tag)) else None
      ensures db.committed == if r.Some? then Created(old(db.committed), name, id, tag) else old(db.committed)
      ensures
        var before, rows := old(db.committed), old(db.committed.tables.repositories);
        r.Some? ==>
          db.committed == before.(tables := before.tables.(repositories := rows[name := Repository(id, tag)]))
    {
      var done := db.Exec((d: Db) => Created(d, name, id, tag), ok && name !in db.committed.tables.repositories);
      return if done then Some(Repository(id, tag)) else None;
    }

    /** No row of that id is an error, too, but one that leaves the transaction alive. */
    method Update(id: nat, tag: Tag, ok: bool) returns (done: bool)
      requires db.Valid() && db.open
      modifies db
      ensures db.Valid() && db.open && db.committed == old(db.committed)
      ensures done == (ok && !old(db.aborted) && HasId(old(db.Current()).tables, id))
      ensures done ==> !db.aborted && db.pending == Then(old(db.pending), TagSetting(id, tag))
      ensures
        var seen, rows := old(db.Current()), old(db.Current()).tables.repositories;
        done ==>
          && db.Current() == seen.(tables := seen.tables.(repositories := db.Current().tables.repositories))
          && db.Current().tables.repositories.Keys == rows.Keys
          && forall n :: n in rows ==>
               db.Current().tables.repositories[n] == if rows[n].id == id then Repository(id, tag) else rows[n]
    {
      var known := HasId(db.Current().tables, id);
      done := db.Exec(TagSetting(id, tag), ok);
      if !known { done := false; }
    }

    method Delete(name: Name, ok: bool) returns (done: bool)
      requires db.Valid() && !db.open
      modifies db
      ensures db.Valid() && !db.open && done == ok
      ensures db.committed == if ok then Dropped(old(db.committed), name) else old(db.committed)
      ensures
        var before, rows := old(db.committed), old(db.committed.tables.repositories);
        var subscriptions := db.committed.tables.subscriptions;
        ok ==>
          && db.committed == before.(tables := Tables(rows - {name}, subscriptions))
          && (forall p :: p in subscriptions <==>
                p in before.tables.subscriptions && !(name in rows && p.repositoryId == rows[name].id))
          && (forall p :: p in subscriptions ==> subscriptions[p] == before.tables.subscriptions[p])
    {
      assert name !in db.committed.tables.repositories ==>
        db.committed.tables.repositories - {name} == db.committed.tables.repositories;
      done := db.Exec((d: Db) => Dropped(d, name), ok);
    }
  }

  class SubscriptionRepository {
    const db: Session<Db>

    constructor (db: Session<Db>)
      ensures this.db == db
    {
      this.db := db;
    }

    method GetByRepoID(id: nat, ok: bool) returns (subscribers: Option<seq<Subscriber>>)
      ensures subscribers.Some? == ok
      ensures ok ==> Tracker.Lists(db.committed.tables, id, subscribers.value)
      ensures
        var rows := db.committed.tables.subscriptions;
        ok ==> forall email, token ::
          Subscriber(email, token) in subscribers.value <==> Place(id, email) in rows && rows[Place(id, email)] == token
    {
      if !ok { return None; }
      var t := db.committed.tables;
      var rest, found: seq<Subscriber> := t.subscriptions.Keys, [];
      while rest != {}
        invariant rest <= t.subscriptions.Keys
        invariant forall i, j :: 0 <= i < j < |found| ==> found[i].email != found[j].email
        invariant forall s :: s in found ==>
                    && Place(id, s.email) in t.subscriptions && t.subscriptions[Place(id, s.email)] == s.token
                    && Place(id, s.email) !in rest
        invariant forall p :: p in t.subscriptions && p !in rest && p.repositoryId == id ==>
                    Subscriber(p.email, t.subscriptions[p]) in found
        decreases rest
      {
        var p :| p in rest;
        if p.repositoryId == id { found := found + [Subscriber(p.email, t.subscriptions[p])]; }
        rest := rest - {p};
      }
      forall email | Place(id, email) in t.subscriptions
        ensures Subscriber(email, t.subscriptions[Place(id, email)]) in found
      {
      }
      return Some(found);
    }

    method DeleteByEmailAndRepo(key: Key, ok: bool) returns (done: bool)
      requires db.Valid() && !db.open
      modifies db
      ensures db.Valid() && !db.open && done == ok
      ensures db.committed == if ok then Removed(old(db.committed), key) else old(db.committed)
      ensures
        var before, rows := old(db.committed), old(db.committed.tables.repositories);
        var subscriptions := before.tables.subscriptions;
        ok ==>
          db.committed == before.(tables := before.tables.(
            subscriptions :=
              if key.repo in rows then subscriptions - {Place(rows[key.repo].id, key.email)} else subscriptions))
    {
      done := db.Exec((d: Db) => Removed(d, key), ok);
    }

    method HasMore(name: Name, ok: bool) returns (has: Option<bool>)
      ensures has == if ok then Some(HasSubscriptions(db.committed.tables, name)) else None
    {
      return if ok then Some(HasSubscriptions(db.committed.tables, name)) else None;
    }

    /** Fails on a repository id that no row has. */
    method Upsert(id: nat, email: Email, token: Token, ok: bool) returns (done: bool)
      requires db.Valid() && !db.open
      modifies db
      ensures db.Valid() && !db.open && done == (ok && HasId(old(db.committed.tables), id))
      ensures db.committed == if done then Upserted(old(db.committed), id, email, token) else old(db.committed)
      ensures
        var before := old(db.committed);
        done ==>
          db.committed == before.(tables := before.tables.(
            subscriptions := before.tables.subscriptions[Place(id, email) := token]))
    {
      done := db.Exec((d: Db) => Upserted(d, id, email, token), ok && HasId(db.committed.tables, id));
    }
  }

  /** What goes well in one GetOrCreate. */
  datatype RegisterWorld = RegisterWorld(
    lookupOk: bool, now: nat, existence: World<bool>, release: World<Tag>, createOk: bool)

  function ReleaseKey(name: Name): string {
    "release:" + name
  }

  function ExistsKey(name: Name): string {
    "repo_exists:" + name
  }

  lemma KeysDiffer(m: Name, n: Name)
    ensures ExistsKey(m) != ReleaseKey(n)
    ensures ReleaseKey(m) == ReleaseKey(n) ==> m == n
  {
    assert ExistsKey(m)[2] == 'p' && ReleaseKey(n)[2] == 'l';
    assert ReleaseKey(m)[8..] == m && ReleaseKey(n)[8..] == n;
  }

  /** The tag GetOrCreate would register an unknown repository with, or None if it cannot. */
  function Registers(entries: Entries, name: Name, w: RegisterWorld): Option<Tag> {
    if Answer(Flags(entries), ExistsKey(name), w.now, w.existence) == Some(true) && w.createOk
    then Answer(entries, ReleaseKey(name), w.now, w.release)
    else None
  }

  /** What GetOrCreate returns and leaves in the database. */
  datatype Located = Located(row: Option<Repository>, db: Db)

  /** It returns the row of the name. If there is none it registers the name with `tag`, if it has one, unless
      somebody else has registered the name meanwhile. Nothing is written in any other case. */
  function Locates(db: Db, name: Name, id: nat, tag: Option<Tag>, lookupOk: bool, meanwhile: Db -> Db): Located {
    if !lookupOk then Located(None, db)
    else if name in db.tables.repositories then Located(Some(db.tables.repositories[name]), db)
    else
      var later := meanwhile(db);
      if tag.None? || name in later.tables.repositories then Located(None, later)
      else Located(Some(Repository(id, tag.value)), Created(later, name, id, tag.value))
  }

  class RepositoryUseCase {
    const repositories: RepositoryRepository
    const github: CachedGitHubClient

    constructor (repositories: RepositoryRepository, github: CachedGitHubClient)
      ensures this.repositories == repositories && this.github == github
    {
      this.repositories, this.github := repositories, github;
    }

    /** Asks GitHub between its two statements, so others have time to act. The tag is what the cached client reports
        for a repository that exists. A known name is returned as it is; an unknown one is registered exactly if the
        repository exists and has a release - by GitHub's own answers where nothing is cached - and with the tag of that
        release. */
    method GetOrCreate(name: Name, id: nat, w: RegisterWorld, meanwhile: Db -> Db) returns (r: Option<Repository>)
      requires repositories.db.Valid() && !repositories.db.open
      modifies repositories.db, github.cache
      ensures repositories.db.Valid() && !repositories.db.open
      ensures
        var tag := Registers(old(github.cache.entries), name, w);
        Located(r, repositories.db.committed)
        == Locates(old(repositories.db.committed), name, id, tag, w.lookupOk, meanwhile)
      ensures
        var before := old(repositories.db.committed);
        w.lookupOk && name in before.tables.repositories ==>
          r == Some(before.tables.repositories[name]) && repositories.db.committed == before
      ensures
        var before, entries := old(repositories.db.committed), old(github.cache.entries);
        var known, latest := "repo_exists:" + name, "release:" + name;
        var later := meanwhile(before);
        w.lookupOk && name !in before.tables.repositories && w.existence.setOk && w.release.setOk && w.createOk ==>
          var exists_ :=
            if w.existence.getOk && known in entries && w.now < entries[known].expires
            then Some(entries[known].value == "true") else w.existence.answer;
          var release :=
            if w.release.getOk && latest in entries && w.now < entries[latest].expires
            then Some(entries[latest].value) else w.release.answer;
          if exists_ == Some(true) && release.Some? && name !in later.tables.repositories then
            && r == Some(Repository(id, release.value))
            && repositories.db.committed == later.(tables := later.tables.(
                 repositories := later.tables.repositories[name := Repository(id, release.value)]))
          else
            r == None && repositories.db.committed == later
    {
      var found := repositories.GetByName(name, w.lookupOk);
      if found.Found? { return Some(found.repository); }
      if found.Failed? { return None; }
      repositories.db.Elapse(meanwhile(repositories.db.committed));
      KeysDiffer(name, name);
      var exists_ := github.RepoExists(name, w.now, w.existence);
      if exists_ != Some(true) { return None; }
      var release := github.GetLatestRelease(name, w.now, w.release);
      if release.None? { return None; }
      r := repositories.Create(name, release.value, id, w.createOk);
    }

    /** The snapshot with the new tag, if the client reports another tag than the one stored. */
    method CheckForUpdates(repo: Tracker.Snapshot, now: nat, w: World<Tag>)
        returns (failed: bool, updated: Option<Tracker.Snapshot>)
      modifies github.cache
      ensures github.cache.entries == After(old(github.cache.entries), ReleaseKey(repo.name), RELEASE_TTL, now, w)
      ensures
        var tag := Answer(old(github.cache.entries), ReleaseKey(repo.name), now, w);
        && failed == tag.None?
        && updated == if tag.Some? && tag.value != repo.tag then Some(repo.(tag := tag.value)) else None
    {
      var release := github.GetLatestRelease(repo.name, now, w);
      if release.None? { return true, None; }
      if release.value == repo.tag { return false, None; }
      return false, Some(repo.(tag := release.value));
    }

    method UpdateRepo(repo: Tracker.Snapshot, ok: bool) returns (done: bool)
      requires repositories.db.Valid() && repositories.db.open
      modifies repositories.db
      ensures repositories.db.Valid() && repositories.db.open
      ensures repositories.db.committed == old(repositories.db.committed)
      ensures done == (ok && !old(repositories.db.aborted) && HasId(old(repositories.db.Current()).tables, repo.id))
      ensures done ==>
        && !repositories.db.aborted
        && repositories.db.pending == Then(old(repositories.db.pending), TagSetting(repo.id, repo.tag))
    {
      done := repositories.Update(repo.id, repo.tag, ok);
    }

    method Delete(name: Name, ok: bool) returns (done: bool)
      requires repositories.db.Valid() && !repositories.db.open
      modifies repositories.db
      ensures repositories.db.Valid() && !repositories.db.open && done == ok
      ensures repositories.db.committed ==
        if ok then Dropped(old(repositories.db.committed), name) else old(repositories.db.committed)
    {
      done := repositories.Delete(name, ok);
    }
  }

  /** What the activation handler does with the row it located, amid what others do. */
  predicate ActivationHandled(l: Located, key: Key, token: Token, upsertOk: bool, between: Db -> Db, statements: nat,
      after: Db) {
    if l.row.None? then statements == 0 && after == l.db
    else
      var ready := between(l.db);
      if upsertOk && HasId(ready.tables, l.row.value.id)
      then statements == 2 && after == Upserted(ready, l.row.value.id, key.email, token)
      else statements == 1 && after == ready
  }

  class SubscriptionActivatedConsumer {
    const repositories: RepositoryUseCase
    const subscriptions: SubscriptionRepository

    constructor (repositories: RepositoryUseCase, subscriptions: SubscriptionRepository)
      ensures this.repositories == repositories && this.subscriptions == subscriptions
    {
      this.repositories, this.subscriptions := repositories, subscriptions;
    }

    /** Two statements, the second on the row the first found; acknowledged exactly if both are done. Undisturbed, the
        tables change as by the first `statements` statements of the handler. */
    method Handle(key: Key, token: Token, id: nat, w: RegisterWorld, upsertOk: bool, meanwhile: Db -> Db,
        between: Db -> Db)
        returns (settlement: Settlement, statements: nat)
      requires repositories.repositories.db == subscriptions.db && subscriptions.db.Valid() && !subscriptions.db.open
      modifies subscriptions.db, repositories.github.cache
      ensures subscriptions.db.Valid() && !subscriptions.db.open
      ensures statements <= 2 && settlement == if statements == 2 then Ack else Requeue
      ensures
        var l := Locates(old(subscriptions.db.committed), key.repo, id,
                         Registers(old(repositories.github.cache.entries), key.repo, w), w.lookupOk, meanwhile);
        ActivationHandled(l, key, token, upsertOk, between, statements, subscriptions.db.committed)
      ensures
        var before := old(subscriptions.db.committed);
        var tag := Registers(old(repositories.github.cache.entries), key.repo, w);
        meanwhile(before) == before && between == Same<Db>() ==>
          && (statements >= 1 <==> w.lookupOk && (key.repo in before.tables.repositories || tag.Some?))
          && (statements == 2 <==> statements >= 1 && upsertOk)
          && var used := if tag.Some? then tag.value else "";
             subscriptions.db.committed ==
               before.(tables := Activation(before.tables, key, token, id, used, statements))
    {
      var r := repositories.GetOrCreate(key.repo, id, w, meanwhile);
      if r.None? { return Requeue, 0; }
      subscriptions.db.Elapse(between(subscriptions.db.committed));
      assert between == Same<Db>() ==> HasId(subscriptions.db.committed.tables, r.value.id) by {
        if between == Same<Db>() { assert subscriptions.db.committed.tables.repositories[key.repo] == r.value; }
      }
      var done := subscriptions.Upsert(r.value.id, key.email, token, upsertOk);
      if !done { return Requeue, 1; }
      return Ack, 2;
    }
  }

  class UnsubscriptionActivatedConsumer {
    const repositories: RepositoryUseCase
    const subscriptions: SubscriptionRepository

    constructor (repositories: RepositoryUseCase, subscriptions: SubscriptionRepository)
      ensures this.repositories == repositories && this.subscriptions == subscriptions
    {
      this.repositories, this.subscriptions := repositories, subscriptions;
    }

    /** Three statements with others in between: the deletion of the repository goes by what the check saw. */
    method Handle(key: Key, deleteOk: bool, checkOk: bool, dropOk: bool, beforeCheck: Db -> Db, beforeDrop: Db -> Db)
        returns (settlement: Settlement, statements: nat)
      requires repositories.repositories.db == subscriptions.db && subscriptions.db.Valid() && !subscriptions.db.open
      modifies subscriptions.db
      ensures subscriptions.db.Valid() && !subscriptions.db.open
      ensures statements <= 2 && settlement == if statements == 2 then Ack else Requeue
      ensures
        var before := old(subscriptions.db.committed);
        var checked := beforeCheck(Removed(before, key));
        var last := beforeDrop(checked);
        if !deleteOk then statements == 0 && subscriptions.db.committed == before
        else if !checkOk then statements == 1 && subscriptions.db.committed == checked
        else if HasSubscriptions(checked.tables, key.repo) then statements == 2 && subscriptions.db.committed == checked
        else if dropOk then statements == 2 && subscriptions.db.committed == Dropped(last, key.repo)
        else statements == 1 && subscriptions.db.committed == last
      ensures
        var before := old(subscriptions.db.committed);
        beforeCheck == Same<Db>() == beforeDrop ==>
          subscriptions.db.committed == before.(tables := Unsubscription(before.tables, key, statements))
    {
      var deleted := subscriptions.DeleteByEmailAndRepo(key, deleteOk);
      if !deleted { return Requeue, 0; }
      subscriptions.db.Elapse(beforeCheck(subscriptions.db.committed));
      var hasMore := subscriptions.HasMore(key.repo, checkOk);
      if hasMore.None? { return Requeue, 1; }
      if !hasMore.value {
        subscriptions.db.Elapse(beforeDrop(subscriptions.db.committed));
        var dropped := repositories.Delete(key.repo, dropOk);
        if !dropped { return Requeue, 1; }
      }
      return Ack, 2;
    }
  }
}
