/** The release pass: one transaction per repository that moves its tag and queues a notification per subscriber. */
module Releases {
  import opened Contracts
  import opened Storage
  import opened TrackerTables
  import opened CachedReads
  import Tracker
  import opened TrackerStore

  /** What goes well while one repository is processed; `inserts` notification rows go in before one fails. The last
      three are what others do to the database: until the subscribers are read, from then until the transaction
      begins, and while it is open. */
  datatype Luck = Luck(
    now: nat, release: World<Tag>, readOk: bool, beginOk: bool, updateOk: bool, inserts: nat, commitOk: bool,
    publishOk: bool, beforeRead: Db -> Db, beforeBegin: Db -> Db, during: Db -> Db)

  ghost predicate Undisturbed(luck: Luck) {
    luck.beforeRead == Same<Db>() && luck.beforeBegin == Same<Db>() && luck.during == Same<Db>()
  }

  /** The luck of every repository, by id. */
  type Fate = nat -> Luck

  ghost predicate AllUndisturbed(fate: Fate) {
    forall id :: Undisturbed(fate(id))
  }

  function Subscribers(t: Tables, id: nat): set<Place> {
    set p | p in t.subscriptions && p.repositoryId == id
  }

  /** The tag the cached client reports for the repository, if it is a new one. */
  function NewTag(entries: Entries, r: Tracker.Snapshot, fate: Fate): Option<Tag> {
    var tag := Answer(entries, ReleaseKey(r.name), fate(r.id).now, fate(r.id).release);
    if tag.Some? && tag.value != r.tag then tag else None
  }

  /** The repository moves to its new tag: nothing fails on the way, and its row is still there. */
  predicate Moves(t: Tables, entries: Entries, r: Tracker.Snapshot, fate: Fate) {
    var luck := fate(r.id);
    && NewTag(entries, r, fate).Some?
    && luck.readOk && luck.beginOk && luck.updateOk && HasId(t, r.id)
    && luck.inserts >= |Subscribers(t, r.id)| && luck.commitOk
  }

  /** The notification owed to this subscriber row if the repository moves. */
  function Owed(t: Tables, entries: Entries, r: Tracker.Snapshot, fate: Fate, p: Place): Message
    requires p in t.subscriptions && NewTag(entries, r, fate).Some?
  {
    Notification(Key(p.email, r.name), NewTag(entries, r, fate).value, t.subscriptions[p])
  }

  // ----- what a pass over a set of repositories amounts to, in any order -----

  ghost predicate Moving(t: Tables, entries: Entries, repos: set<Tracker.Snapshot>, fate: Fate, r: Tracker.Snapshot) {
    r in repos && Moves(t, entries, r, fate)
  }

  /** Some moving repository owes this message. */
  ghost predicate Due(t: Tables, entries: Entries, repos: set<Tracker.Snapshot>, fate: Fate, m: Message) {
    exists r, p :: Moving(t, entries, repos, fate, r) && p in Subscribers(t, r.id) && m == Owed(t, entries, r, fate, p)
  }

  /** The tables after the pass: a repository has its new tag exactly if it moves, and nothing else changes. */
  ghost predicate Retagged(before: Tables, entries: Entries, repos: set<Tracker.Snapshot>, fate: Fate, after: Tables) {
    && after.subscriptions == before.subscriptions
    && after.repositories.Keys == before.repositories.Keys
    && (forall n :: n in before.repositories ==> after.repositories[n].id == before.repositories[n].id)
    && (forall r :: Moving(before, entries, repos, fate, r) && r.name in before.repositories ==>
          after.repositories[r.name].tag == NewTag(entries, r, fate).value)
    && (forall n ::
          n in before.repositories && (forall r :: Moving(before, entries, repos, fate, r) ==> r.name != n) ==>
            after.repositories[n].tag == before.repositories[n].tag)
  }

  /** The tables and the outbox after the pass: the outbox grew by exactly one copy of every message that is due. */
  ghost predicate Passed(before: Db, entries: Entries, repos: set<Tracker.Snapshot>, fate: Fate, after: Db) {
    && Retagged(before.tables, entries, repos, fate, after.tables)
    && (forall m :: multiset(after.outbox)[m] ==
          multiset(before.outbox)[m] + if Due(before.tables, entries, repos, fate, m) then 1 else 0)
  }

  ghost function Set(repos: seq<Tracker.Snapshot>): set<Tracker.Snapshot> {
    set r | r in repos
  }

  /** The snapshots are of rows of the table, each repository once. */
  ghost predicate Listed(t: Tables, repos: set<Tracker.Snapshot>) {
    forall r :: r in repos ==> r.name in t.repositories && t.repositories[r.name] == Repository(r.id, r.tag)
  }

  lemma TagsAgree(a: Tables, b: Tables, n: Name)
    requires n in a.repositories && n in b.repositories
    requires a.repositories[n].id == b.repositories[n].id && a.repositories[n].tag == b.repositories[n].tag
    ensures a.repositories[n] == b.repositories[n]
  {
  }

  /** The outcome of a pass does not depend on the order: any two passes over the same repositories with the same luck
      leave the same tables and, as a multiset, the same outbox. */
  lemma OrderDoesNotMatter(before: Db, entries: Entries, repos: set<Tracker.Snapshot>, fate: Fate, a: Db, b: Db)
    requires Listed(before.tables, repos)
    requires Passed(before, entries, repos, fate, a) && Passed(before, entries, repos, fate, b)
    ensures a.tables == b.tables && multiset(a.outbox) == multiset(b.outbox)
  {
    forall n | n in before.tables.repositories ensures a.tables.repositories[n] == b.tables.repositories[n] {
      if r :| Moving(before.tables, entries, repos, fate, r) && r.name == n {
        assert a.tables.repositories[r.name].tag == b.tables.repositories[r.name].tag;
      }
      TagsAgree(a.tables, b.tables, n);
    }
    assert a.tables.repositories == b.tables.repositories;
    forall m ensures multiset(a.outbox)[m] == multiset(b.outbox)[m] { }
  }

  /** A second pass in which the client repeats its answers adds nothing for a repository that moved. */
  lemma SecondPassAddsNothing(before: Db, entries: Entries, repos: set<Tracker.Snapshot>, fate: Fate, after: Db,
      entries': Entries, repos': set<Tracker.Snapshot>, fate': Fate, r: Tracker.Snapshot, m: Message)
    requires Listed(before.tables, repos) && Passed(before, entries, repos, fate, after) && Listed(after.tables, repos')
    requires Moving(before.tables, entries, repos, fate, r) && m.Notification? && m.key.repo == r.name
    requires forall q :: q in repos' && q.name == r.name ==>
      Answer(entries', ReleaseKey(q.name), fate'(q.id).now, fate'(q.id).release) == NewTag(entries, r, fate)
    ensures !Due(after.tables, entries', repos', fate', m)
  {
    forall q | q in repos' && q.name == r.name ensures NewTag(entries', q, fate') == None {
      assert after.tables.repositories[q.name].tag == q.tag == NewTag(entries, r, fate).value;
    }
  }

  // ----- one repository more -----

  function NotesFor(name: Name, tag: Tag, subscribers: seq<Subscriber>, n: nat): seq<Message>
    requires n <= |subscribers|
  {
    if n == 0 then [] else NotesFor(name, tag, subscribers, n - 1) + [Tracker.Note(name, tag, subscribers[n - 1])]
  }

  ghost predicate IsNote(name: Name, tag: Tag, subscribers: seq<Subscriber>, n: nat, m: Message)
    requires n <= |subscribers|
  {
    exists i :: 0 <= i < n && m == Tracker.Note(name, tag, subscribers[i])
  }

  lemma {:induction false} CountNotes(name: Name, tag: Tag, subscribers: seq<Subscriber>, n: nat, m: Message)
    requires n <= |subscribers|
    requires forall i, j :: 0 <= i < j < |subscribers| ==> subscribers[i].email != subscribers[j].email
    ensures multiset(NotesFor(name, tag, subscribers, n))[m] == if IsNote(name, tag, subscribers, n, m) then 1 else 0
  {
    if n > 0 {
      CountNotes(name, tag, subscribers, n - 1, m);
      var last := Tracker.Note(name, tag, subscribers[n - 1]);
      assert IsNote(name, tag, subscribers, n, m) <==> IsNote(name, tag, subscribers, n - 1, m) || m == last;
      assert m == last ==> !IsNote(name, tag, subscribers, n - 1, m);
    }
  }

  lemma {:induction false} ListSize(id: nat, subscribers: seq<Subscriber>)
    requires forall i, j :: 0 <= i < j < |subscribers| ==> subscribers[i].email != subscribers[j].email
    ensures |set s | s in subscribers :: Place(id, s.email)| == |subscribers|
  {
    if subscribers != [] {
      var rest, last := subscribers[..|subscribers| - 1], subscribers[|subscribers| - 1];
      ListSize(id, rest);
      PlaceOfLast(id, rest, last);
      assert subscribers == rest + [last];
    }
  }

  lemma PlaceOfLast(id: nat, rest: seq<Subscriber>, last: Subscriber)
    requires forall i :: 0 <= i < |rest| ==> rest[i].email != last.email
    ensures |set s | s in rest + [last] :: Place(id, s.email)| == 1 + |set s | s in rest :: Place(id, s.email)|
  {
    var places := set s | s in rest :: Place(id, s.email);
    assert Place(id, last.email) !in places;
    assert (set s | s in rest + [last] :: Place(id, s.email)) == places + {Place(id, last.email)};
  }

  lemma ListedCount(t: Tables, id: nat, subscribers: seq<Subscriber>)
    requires Tracker.Lists(t, id, subscribers)
    ensures |subscribers| == |Subscribers(t, id)|
  {
    ListSize(id, subscribers);
    var places := set s | s in subscribers :: Place(id, s.email);
    forall p | p in Subscribers(t, id) ensures p in places {
      assert Subscriber(p.email, t.subscriptions[p]) in subscribers;
    }
    assert places == Subscribers(t, id);
  }

  /** The notes of a moving repository are one copy of each message it owes. */
  lemma NotesAreOwed(t: Tables, entries: Entries, r: Tracker.Snapshot, fate: Fate, subscribers: seq<Subscriber>,
      m: Message)
    requires Tracker.Lists(t, r.id, subscribers) && NewTag(entries, r, fate).Some?
    ensures multiset(NotesFor(r.name, NewTag(entries, r, fate).value, subscribers, |subscribers|))[m] ==
      if exists p :: p in Subscribers(t, r.id) && m == Owed(t, entries, r, fate, p) then 1 else 0
  {
    var tag := NewTag(entries, r, fate).value;
    CountNotes(r.name, tag, subscribers, |subscribers|, m);
    if IsNote(r.name, tag, subscribers, |subscribers|, m) {
      var i :| 0 <= i < |subscribers| && m == Tracker.Note(r.name, tag, subscribers[i]);
      var p := Place(r.id, subscribers[i].email);
      assert subscribers[i] in subscribers;
      assert p in Subscribers(t, r.id) && m == Owed(t, entries, r, fate, p);
    }
    if p :| p in Subscribers(t, r.id) && m == Owed(t, entries, r, fate, p) {
      var i :| 0 <= i < |subscribers| && subscribers[i] == Subscriber(p.email, t.subscriptions[p]);
      assert m == Tracker.Note(r.name, tag, subscribers[i]);
    }
  }

  /** The transaction goes through, for `n` subscribers read. */
  predicate Succeeds(start: Tables, r: Tracker.Snapshot, n: nat, luck: Luck) {
    luck.beginOk && luck.updateOk && HasId(start, r.id) && luck.inserts >= n && luck.commitOk
  }

  /** The release of a new tag to the subscribers read: the repository has its tag and there is one row per subscriber
      read, or nothing but what others did. */
  ghost predicate Released(luck: Luck, start: Db, r: Tracker.Snapshot, tag: Tag, subscribers: seq<Subscriber>,
      after: Db) {
    var end := luck.during(start);
    if Succeeds(start.tables, r, |subscribers|, luck)
    then after == Db(SetTag(end.tables, r.id, tag), end.outbox + NotesFor(r.name, tag, subscribers, |subscribers|))
    else after == start || after == end
  }

  /** What processing one repository does amid what others do. */
  ghost predicate Processed(before: Db, entries: Entries, r: Tracker.Snapshot, fate: Fate, after: Db) {
    var luck, tag, read := fate(r.id), NewTag(entries, r, fate), fate(r.id).beforeRead(before);
    if tag.None? then after == before
    else if !luck.readOk then after == read
    else
      exists subscribers :: Tracker.Lists(read.tables, r.id, subscribers) &&
        Released(luck, luck.beforeBegin(read), r, tag.value, subscribers, after)
  }

  lemma AloneIfUndisturbed(before: Db, entries: Entries, r: Tracker.Snapshot, fate: Fate, after: Db)
    requires Undisturbed(fate(r.id)) && Processed(before, entries, r, fate, after)
    ensures ProcessedAlone(before, entries, r, fate, after)
  {
    var luck, tag := fate(r.id), NewTag(entries, r, fate);
    if tag.Some? && luck.readOk {
      var subscribers :| Tracker.Lists(before.tables, r.id, subscribers) &&
        Released(luck, before, r, tag.value, subscribers, after);
      ListedCount(before.tables, r.id, subscribers);
    }
  }

  /** What processing one repository does undisturbed. */
  ghost predicate ProcessedAlone(before: Db, entries: Entries, r: Tracker.Snapshot, fate: Fate, after: Db) {
    if Moves(before.tables, entries, r, fate) then
      exists subscribers :: Tracker.Lists(before.tables, r.id, subscribers) &&
        after == Db(SetTag(before.tables, r.id, NewTag(entries, r, fate).value),
                    before.outbox + NotesFor(r.name, NewTag(entries, r, fate).value, subscribers, |subscribers|))
    else
      after == before
  }

  lemma DueOneMore(t: Tables, entries: Entries, repos: set<Tracker.Snapshot>, fate: Fate, r: Tracker.Snapshot,
      m: Message)
    ensures Due(t, entries, repos + {r}, fate, m) <==>
      Due(t, entries, repos, fate, m)
      || (Moves(t, entries, r, fate) && exists p :: p in Subscribers(t, r.id) && m == Owed(t, entries, r, fate, p))
  {
    if Due(t, entries, repos, fate, m) {
      var q, p :| Moving(t, entries, repos, fate, q) && p in Subscribers(t, q.id) && m == Owed(t, entries, q, fate, p);
      assert Moving(t, entries, repos + {r}, fate, q);
    }
    if Moves(t, entries, r, fate) && exists p :: p in Subscribers(t, r.id) && m == Owed(t, entries, r, fate, p) {
      var p :| p in Subscribers(t, r.id) && m == Owed(t, entries, r, fate, p);
      assert Moving(t, entries, repos + {r}, fate, r);
    }
  }

  lemma PassedOutbox(before: Db, entries: Entries, repos: set<Tracker.Snapshot>, fate: Fate, mid: Db,
      r: Tracker.Snapshot, after: Db,
      m: Message)
    requires Passed(before, entries, repos, fate, mid) && ProcessedAlone(mid, entries, r, fate, after)
    requires Moves(mid.tables, entries, r, fate) <==> Moves(before.tables, entries, r, fate)
    requires forall q :: q in repos ==> q.name != r.name
    ensures multiset(after.outbox)[m] ==
      multiset(before.outbox)[m] + if Due(before.tables, entries, repos + {r}, fate, m) then 1 else 0
  {
    DueOneMore(before.tables, entries, repos, fate, r, m);
    if Moves(before.tables, entries, r, fate) {
      var subscribers :| Tracker.Lists(mid.tables, r.id, subscribers) &&
        after == Db(SetTag(mid.tables, r.id, NewTag(entries, r, fate).value),
                    mid.outbox + NotesFor(r.name, NewTag(entries, r, fate).value, subscribers, |subscribers|));
      NotesAreOwed(before.tables, entries, r, fate, subscribers, m);
    }
  }

  lemma HasIdStays(before: Db, entries: Entries, repos: set<Tracker.Snapshot>, fate: Fate, mid: Db, r: Tracker.Snapshot)
    requires Passed(before, entries, repos, fate, mid)
    ensures Moves(mid.tables, entries, r, fate) <==> Moves(before.tables, entries, r, fate)
  {
    if HasId(before.tables, r.id) {
      var n :| n in before.tables.repositories && before.tables.repositories[n].id == r.id;
      assert n in mid.tables.repositories && mid.tables.repositories[n].id == r.id;
    }
    if HasId(mid.tables, r.id) {
      var n :| n in mid.tables.repositories && mid.tables.repositories[n].id == r.id;
      assert before.tables.repositories[n].id == r.id;
    }
  }

  lemma MovingOneMore(t: Tables, entries: Entries, repos: set<Tracker.Snapshot>, fate: Fate, r: Tracker.Snapshot)
    ensures forall q :: Moving(t, entries, repos + {r}, fate, q) <==>
      Moving(t, entries, repos, fate, q) || (q == r && Moves(t, entries, r, fate))
    ensures forall q :: Moving(t, entries, repos, fate, q) ==> q in repos
  {
  }

  lemma OneMoreTag(before: Tables, entries: Entries, repos: set<Tracker.Snapshot>, fate: Fate, mid: Tables,
      r: Tracker.Snapshot)
    requires WellFormed(before) && Listed(before, repos + {r}) && Retagged(before, entries, repos, fate, mid)
    requires forall q :: q in repos ==> q.name != r.name
    ensures Retagged(before, entries, repos + {r}, fate,
                     if Moves(before, entries, r, fate) then SetTag(mid, r.id, NewTag(entries, r, fate).value) else mid)
  {
    hide Moves, NewTag, Moving;
    MovingOneMore(before, entries, repos, fate, r);
    assert r in repos + {r} && before.repositories[r.name].id == r.id;
    assert forall n :: n in mid.repositories && mid.repositories[n].id == r.id ==> n == r.name;
  }

  lemma OneMore(before: Db, entries: Entries, repos: set<Tracker.Snapshot>, fate: Fate, mid: Db, r: Tracker.Snapshot,
      after: Db)
    requires WellFormed(before.tables) && Listed(before.tables, repos + {r})
    requires Passed(before, entries, repos, fate, mid) && ProcessedAlone(mid, entries, r, fate, after)
    requires forall q :: q in repos ==> q.name != r.name
    ensures Passed(before, entries, repos + {r}, fate, after)
  {
    HasIdStays(before, entries, repos, fate, mid, r);
    forall m ensures multiset(after.outbox)[m] ==
      multiset(before.outbox)[m] + if Due(before.tables, entries, repos + {r}, fate, m) then 1 else 0
    {
      PassedOutbox(before, entries, repos, fate, mid, r, after, m);
    }
    OneMoreTag(before.tables, entries, repos, fate, mid.tables, r);
  }

  // ----- the processor -----

  class OutboxWriter {
    const db: Session<Db>

    constructor (db: Session<Db>)
      ensures this.db == db
    {
      this.db := db;
    }

    method Insert(message: Message, ok: bool) returns (done: bool)
      requires db.Valid() && db.open
      modifies db
      ensures db.Valid() && db.open && db.committed == old(db.committed)
      ensures done == (ok && !old(db.aborted)) && db.aborted == !done
      ensures db.pending == if done then Then(old(db.pending), Appending(message)) else old(db.pending)
    {
      done := db.Exec(Appending(message), ok);
    }
  }

  function Appending(message: Message): Db -> Db {
    (db: Db) => db.(outbox := db.outbox + [message])
  }

  /** The calls that report a new tag back to the subscription service. */
  class TagUpdatedPublisher {
    var sent: seq<Tracker.Stamp>

    constructor ()
      ensures sent == []
    {
      sent := [];
    }

    method Publish(stamp: Tracker.Stamp, ok: bool) returns (err: bool)
      modifies this
      ensures err == !ok && sent == if ok then old(sent) + [stamp] else old(sent)
    {
      err := !ok;
      if ok { sent := sent + [stamp]; }
    }
  }

  class ReleaseProcessor {
    const db: Session<Db>
    const repositories: RepositoryUseCase
    const subscriptions: SubscriptionRepository
    const outbox: OutboxWriter
    const tagUpdates: TagUpdatedPublisher

    constructor (repositories: RepositoryUseCase, subscriptions: SubscriptionRepository, outbox: OutboxWriter,
                 tagUpdates: TagUpdatedPublisher)
      requires repositories.repositories.db == subscriptions.db == outbox.db
      ensures this.db == outbox.db && this.repositories == repositories && this.subscriptions == subscriptions
      ensures this.outbox == outbox && this.tagUpdates == tagUpdates
    {
      this.db, this.repositories, this.subscriptions := outbox.db, repositories, subscriptions;
      this.outbox, this.tagUpdates := outbox, tagUpdates;
    }

    ghost predicate Ready()
      reads db
    {
      repositories.repositories.db == db && subscriptions.db == db && outbox.db == db && db.Valid()
    }

    /** Inside the transaction: the tag first, then one row per subscriber until one fails. */
    method CommitRelease(repo: Tracker.Snapshot, subscribers: seq<Subscriber>, updateOk: bool, inserts: nat,
        during: Db -> Db)
        returns (done: bool)
      requires Ready() && db.open && !db.aborted && db.pending == Same<Db>()
      modifies db
      ensures Ready() && db.open
      ensures done == (updateOk && HasId(old(db.committed).tables, repo.id) && inserts >= |subscribers|)
      ensures db.committed == during(old(db.committed)) || (!done && db.committed == old(db.committed))
      ensures done ==> !db.aborted
      ensures done ==>
        var notes := NotesFor(repo.name, repo.tag, subscribers, |subscribers|);
        db.pending(db.committed) == Db(SetTag(db.committed.tables, repo.id, repo.tag), db.committed.outbox + notes)
    {
      done := repositories.UpdateRepo(repo, updateOk);
      if !done { return; }
      db.Elapse(during(db.committed));
      done := InsertNotifications(repo, subscribers, inserts);
    }

    method InsertNotifications(repo: Tracker.Snapshot, subscribers: seq<Subscriber>, inserts: nat) returns (done: bool)
      requires Ready() && db.open && !db.aborted
      modifies db
      ensures Ready() && db.open && db.committed == old(db.committed) && db.aborted == !done
      ensures done == (inserts >= |subscribers|)
      ensures
        var view := old(db.pending(db.committed));
        done ==>
          db.pending(db.committed)
          == view.(outbox := view.outbox + NotesFor(repo.name, repo.tag, subscribers, |subscribers|))
    {
      ghost var view := db.pending(db.committed);
      for i := 0 to |subscribers|
        invariant Ready() && db.open && !db.aborted && db.committed == old(db.committed) && i <= inserts
        invariant db.pending(db.committed) ==
          view.(outbox := view.outbox + NotesFor(repo.name, repo.tag, subscribers, i))
      {
        done := outbox.Insert(Tracker.Note(repo.name, repo.tag, subscribers[i]), i < inserts);
        if !done { return; }
      }
      done := true;
    }

    /** The transaction: all of it or nothing. */
    method Release(repo: Tracker.Snapshot, subscribers: seq<Subscriber>, luck: Luck) returns (done: bool)
      requires Ready() && !db.open
      modifies db
      ensures Ready() && !db.open
      ensures done == Succeeds(old(db.committed).tables, repo, |subscribers|, luck)
      ensures done <==>
        && luck.beginOk && luck.updateOk && luck.inserts >= |subscribers| && luck.commitOk
        && var rows := old(db.committed).tables.repositories;
           exists n :: n in rows && rows[n].id == repo.id
      ensures Released(luck, old(db.committed), repo, repo.tag, subscribers, db.committed)
    {
      done := db.Begin(luck.beginOk);
      if !done { return; }
      done := CommitRelease(repo, subscribers, luck.updateOk, luck.inserts, luck.during);
      if !done {
        db.Rollback();
        return;
      }
      done := db.Commit(luck.commitOk);
    }

    /** The repository either moves, with one notification for every subscriber read, or nothing of this stays. The tag
        update is sent only after a commit. */
    method ProcessRepo(repo: Tracker.Snapshot, fate: Fate) returns (failed: bool, ghost subscribers: seq<Subscriber>)
      requires Ready() && !db.open
      modifies db, repositories.github.cache, tagUpdates
      ensures Ready() && !db.open
      ensures Processed(old(db.committed), old(repositories.github.cache.entries), repo, fate, db.committed)
      ensures
        var luck := fate(repo.id);
        repositories.github.cache.entries ==
          After(old(repositories.github.cache.entries), ReleaseKey(repo.name), RELEASE_TTL, luck.now, luck.release)
      ensures
        var luck, tag := fate(repo.id), NewTag(old(repositories.github.cache.entries), repo, fate);
        var read := luck.beforeRead(old(db.committed));
        var released := tag.Some? && luck.readOk && Succeeds(luck.beforeBegin(read).tables, repo, |subscribers|, luck);
        && (tag.Some? && luck.readOk ==>
              && Tracker.Lists(read.tables, repo.id, subscribers)
              && Released(luck, luck.beforeBegin(read), repo, tag.value, subscribers, db.committed))
        && (tag.Some? ==> failed == !released)
        && tagUpdates.sent ==
             old(tagUpdates.sent) + if released && luck.publishOk then [Tracker.Stamp(repo.name, tag.value)] else []
    {
      var luck := fate(repo.id);
      var updated;
      subscribers := [];
      failed, updated := repositories.CheckForUpdates(repo, luck.now, luck.release);
      if failed || updated.None? { return; }
      db.Elapse(luck.beforeRead(db.committed));
      var subs := subscriptions.GetByRepoID(updated.value.id, luck.readOk);
      if subs.None? { return true, []; }
      subscribers := subs.value;
      db.Elapse(luck.beforeBegin(db.committed));
      var done := Release(updated.value, subs.value, luck);
      if !done { return true, subscribers; }
      var _ := tagUpdates.Publish(Tracker.Stamp(updated.value.name, updated.value.tag), luck.publishOk);
      return false, subscribers;
    }

    /** One pass: unless the list cannot be read, every listed repository is processed, as its own luck has it,
        whatever happens to the others; `dbs` is the database before each and at the end. Undisturbed, the pass as a
        whole is what `Passed` says. */
    method ProcessReleases(listOk: bool, fate: Fate)
        returns (failed: bool, ghost repos: seq<Tracker.Snapshot>, ghost dbs: seq<Db>)
      requires Ready() && !db.open && WellFormed(db.committed.tables)
      modifies db, repositories.github.cache, tagUpdates
      ensures Ready() && !db.open && failed == !listOk
      ensures failed ==> db.committed == old(db.committed)
      ensures !failed ==> Tracker.ListsActive(old(db.committed.tables), repos)
      ensures !failed ==>
        && PassedAmid(old(repositories.github.cache.entries), repos, fate, dbs)
        && dbs[0] == old(db.committed) && dbs[|repos|] == db.committed
      ensures !failed && AllUndisturbed(fate) ==>
        Passed(old(db.committed), old(repositories.github.cache.entries), Set(repos), fate, db.committed)
    {
      ghost var before, entries := db.committed, repositories.github.cache.entries;
      var listed := repositories.repositories.GetAll(listOk);
      if listed.None? { return true, [], [before]; }
      repos, dbs := listed.value, [before];
      for i := 0 to |listed.value|
        invariant Ready() && !db.open && |dbs| == i + 1 && dbs[0] == before && dbs[i] == db.committed
        invariant forall j :: 0 <= j < i ==> Processed(dbs[j], entries, repos[j], fate, dbs[j + 1])
        invariant Untouched(entries, repositories.github.cache.entries, repos, i)
      {
        var repo := listed.value[i];
        ghost var cached := repositories.github.cache.entries;
        var _, _ := ProcessRepo(repo, fate);
        SameFate(dbs[i], entries, cached, repo, fate, db.committed);
        OtherEntries(entries, cached, repos, i, fate);
        dbs := dbs + [db.committed];
      }
      if AllUndisturbed(fate) { PassIsUndisturbed(entries, repos, fate, dbs); }
      failed := false;
    }
  }

  /** Each repository in its turn, from one database to the next. */
  ghost predicate PassedAmid(entries: Entries, repos: seq<Tracker.Snapshot>, fate: Fate, dbs: seq<Db>) {
    && |dbs| == |repos| + 1
    && forall j :: 0 <= j < |repos| ==> Processed(dbs[j], entries, repos[j], fate, dbs[j + 1])
  }

  predicate SameEntry(a: Entries, b: Entries, key: string) {
    (key in a <==> key in b) && (key in a ==> a[key] == b[key])
  }

  lemma SameFate(mid: Db, a: Entries, b: Entries, r: Tracker.Snapshot, fate: Fate, after: Db)
    requires SameEntry(a, b, ReleaseKey(r.name)) && Processed(mid, b, r, fate, after)
    ensures Processed(mid, a, r, fate, after)
  {
    assert NewTag(a, r, fate) == NewTag(b, r, fate);
  }

  /** The cache entries of the repositories still to be processed are as they were. */
  ghost predicate Untouched(entries: Entries, cached: Entries, repos: seq<Tracker.Snapshot>, i: nat) {
    forall j :: i <= j < |repos| ==> SameEntry(entries, cached, ReleaseKey(repos[j].name))
  }

  lemma OtherEntries(entries: Entries, cached: Entries, repos: seq<Tracker.Snapshot>, i: nat, fate: Fate)
    requires i < |repos| && Untouched(entries, cached, repos, i)
    requires forall j, k :: 0 <= j < k < |repos| ==> repos[j].name != repos[k].name
    ensures
      var luck := fate(repos[i].id);
      Untouched(entries, After(cached, ReleaseKey(repos[i].name), RELEASE_TTL, luck.now, luck.release), repos, i + 1)
  {
    forall j | i < j < |repos| ensures ReleaseKey(repos[i].name) != ReleaseKey(repos[j].name) {
      KeysDiffer(repos[i].name, repos[j].name);
    }
  }

  lemma PassStarts(before: Db, entries: Entries, repos: seq<Tracker.Snapshot>, fate: Fate)
    ensures Passed(before, entries, Set(repos[..0]), fate, before)
  {
    assert Set(repos[..0]) == {};
  }

  lemma ActiveIsListed(t: Tables, repos: seq<Tracker.Snapshot>, i: nat)
    requires i <= |repos| && Tracker.ListsActive(t, repos)
    ensures Listed(t, Set(repos[..i]))
  {
    forall r | r in repos[..i] ensures r.name in t.repositories && t.repositories[r.name] == Repository(r.id, r.tag) {
      assert r in repos && Tracker.IsActive(t, r);
    }
  }

  lemma PrefixGrows(repos: seq<Tracker.Snapshot>, i: nat)
    requires i < |repos| && forall j, k :: 0 <= j < k < |repos| ==> repos[j].name != repos[k].name
    ensures Set(repos[..i + 1]) == Set(repos[..i]) + {repos[i]}
    ensures forall q :: q in Set(repos[..i]) ==> q.name != repos[i].name
  {
    assert repos[..i + 1] == repos[..i] + [repos[i]];
  }

  lemma PassStep(before: Db, entries: Entries, repos: seq<Tracker.Snapshot>, i: nat, fate: Fate, mid: Db, after: Db)
    requires i < |repos| && WellFormed(before.tables) && Tracker.ListsActive(before.tables, repos)
    requires Passed(before, entries, Set(repos[..i]), fate, mid) && ProcessedAlone(mid, entries, repos[i], fate, after)
    ensures Passed(before, entries, Set(repos[..i + 1]), fate, after)
  {
    PrefixGrows(repos, i);
    ActiveIsListed(before.tables, repos, i + 1);
    OneMore(before, entries, Set(repos[..i]), fate, mid, repos[i], after);
  }

  lemma {:induction false} PrefixIsUndisturbed(entries: Entries, repos: seq<Tracker.Snapshot>, fate: Fate,
      dbs: seq<Db>, n: nat)
    requires n <= |repos| && PassedAmid(entries, repos, fate, dbs) && AllUndisturbed(fate)
    requires WellFormed(dbs[0].tables) && Tracker.ListsActive(dbs[0].tables, repos)
    ensures Passed(dbs[0], entries, Set(repos[..n]), fate, dbs[n])
  {
    if n == 0 {
      PassStarts(dbs[0], entries, repos, fate);
    } else {
      PrefixIsUndisturbed(entries, repos, fate, dbs, n - 1);
      OneMoreIsUndisturbed(entries, repos, fate, dbs, n - 1);
    }
  }

  lemma OneMoreIsUndisturbed(entries: Entries, repos: seq<Tracker.Snapshot>, fate: Fate, dbs: seq<Db>, i: nat)
    requires i < |repos| && PassedAmid(entries, repos, fate, dbs) && AllUndisturbed(fate)
    requires WellFormed(dbs[0].tables) && Tracker.ListsActive(dbs[0].tables, repos)
    requires Passed(dbs[0], entries, Set(repos[..i]), fate, dbs[i])
    ensures Passed(dbs[0], entries, Set(repos[..i + 1]), fate, dbs[i + 1])
  {
    OneIsUndisturbed(entries, repos, fate, dbs, i);
    PassStep(dbs[0], entries, repos, i, fate, dbs[i], dbs[i + 1]);
  }

  lemma OneIsUndisturbed(entries: Entries, repos: seq<Tracker.Snapshot>, fate: Fate, dbs: seq<Db>, i: nat)
    requires i < |repos| && PassedAmid(entries, repos, fate, dbs) && AllUndisturbed(fate)
    ensures ProcessedAlone(dbs[i], entries, repos[i], fate, dbs[i + 1])
  {
    AloneIfUndisturbed(dbs[i], entries, repos[i], fate, dbs[i + 1]);
  }

  lemma PassIsUndisturbed(entries: Entries, repos: seq<Tracker.Snapshot>, fate: Fate, dbs: seq<Db>)
    requires PassedAmid(entries, repos, fate, dbs) && AllUndisturbed(fate)
    requires WellFormed(dbs[0].tables) && Tracker.ListsActive(dbs[0].tables, repos)
    ensures Passed(dbs[0], entries, Set(repos), fate, dbs[|repos|])
  {
    PrefixIsUndisturbed(entries, repos, fate, dbs, |repos|);
    assert repos[..|repos|] == repos;
  }
}
