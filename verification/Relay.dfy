/** The relay as the services run it: one batch in one transaction, errors of single rows logged and swallowed. */
module Relay {
  import opened Contracts
  import opened Outbox
  import opened Storage

  /** Everything the broker has accepted, in order. */
  class Broker {
    var accepted: seq<Message>

    constructor ()
      ensures accepted == []
    {
      accepted := [];
    }

    method Publish(message: Message, outcome: Outcome) returns (err: bool)
      modifies this
      ensures err == !outcome.Confirmed?
      ensures accepted == if outcome.Rejected? then old(accepted) else old(accepted) + [message]
    {
      err := !outcome.Confirmed?;
      if Queued(outcome) { accepted := accepted + [message]; }
    }
  }

  method Least(ids: set<nat>) returns (least: nat)
    requires ids != {}
    ensures least in ids && forall id :: id in ids ==> least <= id
  {
    least :| least in ids;
    var rest := ids - {least};
    while rest != {}
      invariant least in ids && rest <= ids
      invariant forall id :: id in ids ==> id in rest || least <= id
      decreases |rest|
    {
      var id :| id in rest;
      if id < least { least := id; }
      rest := rest - {id};
    }
  }

  /** The batch after its first `n` messages, when message `i` goes as `env(i)` says. */
  function Played(ids: seq<nat>, env: nat -> Attempt, n: nat): (b: Batch)
    requires n <= |ids|
    ensures b.ids == ids && b.done == n
  {
    if n == 0 then Batch(ids, 0, false, {}) else Advance(Played(ids, env, n - 1), env(n - 1))
  }

  /** The messages of the first `n` rows that reach the broker. */
  function Delivered(table: Table, ids: seq<nat>, env: nat -> Attempt, n: nat): seq<Message>
    requires n <= |ids| && forall id :: id in ids ==> id in table
  {
    if n == 0 then []
    else
      Delivered(table, ids, env, n - 1)
      + if Queued(env(n - 1).outcome) then [table[ids[n - 1]].message] else []
  }

  /** The rows among the first `n` whose publish returned nil. */
  function Acknowledged(ids: seq<nat>, env: nat -> Attempt, n: nat): seq<nat>
    requires n <= |ids|
  {
    if n == 0 then []
    else Acknowledged(ids, env, n - 1) + if env(n - 1).outcome.Confirmed? then [ids[n - 1]] else []
  }

  function CountFailure(table: Table, id: nat, maxAttempts: nat): Table {
    if id in table then table[id := FailRow(table[id], maxAttempts)] else table
  }

  /** The row, if it is there, has one attempt more and is FAILED if that makes `maxAttempts`; nothing else differs. */
  predicate Counted(before: Table, after: Table, id: nat, maxAttempts: nat) {
    if id !in before then after == before
    else
      var row, attempts := before[id], before[id].attempts + 1;
      after == before[id := Row(row.message, if attempts >= maxAttempts then Failed else Pending, attempts)]
  }

  datatype Db = Db(table: Table)

  /** `ids` are the first of the unlocked PENDING rows and `rest` the others. */
  ghost predicate Picked(table: Table, locked: set<nat>, ids: seq<nat>, rest: set<nat>) {
    && Ascending(ids)
    && (forall id :: id in ids ==> IsPending(table, id) && id !in locked)
    && (forall id :: id in rest <==> IsPending(table, id) && id !in locked && id !in ids)
    && (forall id, i :: id in rest && 0 <= i < |ids| ==> ids[i] < id)
  }

  lemma PickedNext(table: Table, locked: set<nat>, ids: seq<nat>, rest: set<nat>, id: nat)
    requires Picked(table, locked, ids, rest) && id in rest && forall other :: other in rest ==> id <= other
    ensures Picked(table, locked, ids + [id], rest - {id})
  {
  }

  class OutboxRepository {
    const db: Session<Db>

    constructor (db: Session<Db>)
      ensures this.db == db
    {
      this.db := db;
    }

    /** The rows other transactions hold locked are skipped. */
    method FetchPending(limit: nat, locked: set<nat>) returns (messages: seq<Entry>)
      ensures IsFetch(db.Current().table, locked, limit, IdsOf(messages))
      ensures forall i :: 0 <= i < |messages| ==>
                && messages[i].id in db.Current().table
                && messages[i].message == db.Current().table[messages[i].id].message
    {
      var table := db.Current().table;
      var rest := set id | id in table.Keys && IsPending(table, id) && id !in locked;
      messages := [];
      ghost var ids := [];
      while rest != {} && |messages| < limit
        invariant |messages| == |ids| <= limit && Picked(table, locked, ids, rest)
        invariant forall i :: 0 <= i < |ids| ==> ids[i] in table && messages[i] == Entry(ids[i], table[ids[i]].message)
        decreases |rest|
      {
        var id := Least(rest);
        PickedNext(table, locked, ids, rest, id);
        messages, ids, rest := messages + [Entry(id, table[id].message)], ids + [id], rest - {id};
      }
      assert IdsOf(messages) == ids;
    }

    method Delete(id: nat, ok: bool) returns (done: bool)
      requires db.Valid() && db.open
      modifies db
      ensures db.Valid() && db.open && db.committed == old(db.committed)
      ensures done == (ok && !old(db.aborted)) && db.aborted == !done
      ensures db.pending == if done then Then(old(db.pending), Deletion(id)) else old(db.pending)
      ensures done ==> db.Current().table == old(db.Current()).table - {id}
    {
      done := db.Exec(Deletion(id), ok);
    }

    method Fail(id: nat, maxAttempts: nat, ok: bool) returns (done: bool)
      requires db.Valid() && db.open
      modifies db
      ensures db.Valid() && db.open && db.committed == old(db.committed)
      ensures done == (ok && !old(db.aborted)) && db.aborted == !done
      ensures db.pending == if done then Then(old(db.pending), Failure(id, maxAttempts)) else old(db.pending)
      ensures done ==> Counted(old(db.Current()).table, db.Current().table, id, maxAttempts)
    {
      done := db.Exec(Failure(id, maxAttempts), ok);
    }
  }

  function Deletion(id: nat): Db -> Db {
    (db: Db) => Db(db.table - {id})
  }

  function Failure(id: nat, maxAttempts: nat): Db -> Db {
    (db: Db) => Db(CountFailure(db.table, id, maxAttempts))
  }

  /** The tables as the transaction sees them after the first `b.done` rows. */
  function Midway(table: Table, b: Batch): Table
    requires b.done <= |b.ids|
  {
    map id | id in table && id !in b.sent ::
      if id in b.ids[..b.done] then FailRow(table[id], MAX_ATTEMPTS) else table[id]
  }

  lemma MidwaySteps(table: Table, b: Batch, a: Attempt)
    requires b.done < |b.ids| && Ascending(b.ids)
    requires forall id :: id in b.sent ==> id in b.ids[..b.done]
    ensures a.outcome.Confirmed? ==> Midway(table, Advance(b, a)) == Midway(table, b) - {b.ids[b.done]}
    ensures !a.outcome.Confirmed? ==>
      Midway(table, Advance(b, a)) == CountFailure(Midway(table, b), b.ids[b.done], MAX_ATTEMPTS)
  {
    var id := b.ids[b.done];
    assert b.ids[..b.done + 1] == b.ids[..b.done] + [id];
    assert id !in b.ids[..b.done];
    assert id in table ==> id in Midway(table, b) && Midway(table, b)[id] == table[id];
  }

  lemma MidwayEnds(table: Table, b: Batch)
    requires b.done == |b.ids|
    ensures Midway(table, b) == Settle(table, b)
  {
    assert b.ids[..b.done] == b.ids;
  }

  lemma {:induction false} SentIsDone(ids: seq<nat>, env: nat -> Attempt, n: nat)
    requires n <= |ids|
    ensures forall id :: id in Played(ids, env, n).sent ==> id in ids[..n]
  {
    if n > 0 {
      SentIsDone(ids, env, n - 1);
      assert ids[..n] == ids[..n - 1] + [ids[n - 1]];
    }
  }

  function EffectOf(id: nat, a: Attempt): Db -> Db {
    if a.outcome.Confirmed? then Deletion(id) else Failure(id, MAX_ATTEMPTS)
  }

  lemma EffectIs(pending: Db -> Db, db: Db, id: nat, a: Attempt)
    ensures
      var now, next := pending(db).table, Then(pending, EffectOf(id, a))(db).table;
      next == if a.outcome.Confirmed? then now - {id} else CountFailure(now, id, MAX_ATTEMPTS)
  {
  }

  lemma PlayedMidway(table: Table, ids: seq<nat>, env: nat -> Attempt, n: nat)
    requires n < |ids| && Ascending(ids)
    ensures
      var now, next := Midway(table, Played(ids, env, n)), Midway(table, Played(ids, env, n + 1));
      next == if env(n).outcome.Confirmed? then now - {ids[n]} else CountFailure(now, ids[n], MAX_ATTEMPTS)
  {
    SentIsDone(ids, env, n);
    MidwaySteps(table, Played(ids, env, n), env(n));
  }

  lemma OneMoreRow(pending: Db -> Db, table: Table, ids: seq<nat>, env: nat -> Attempt, n: nat)
    requires n < |ids| && Ascending(ids) && pending(Db(table)).table == Midway(table, Played(ids, env, n))
    ensures Then(pending, EffectOf(ids[n], env(n)))(Db(table)).table == Midway(table, Played(ids, env, n + 1))
  {
    EffectIs(pending, Db(table), ids[n], env(n));
    PlayedMidway(table, ids, env, n);
  }

  class Relay {
    const outbox: OutboxRepository
    const broker: Broker

    constructor (outbox: OutboxRepository, broker: Broker)
      ensures this.outbox == outbox && this.broker == broker
    {
      this.outbox, this.broker := outbox, broker;
    }

    /** Publishes one row, then deletes it or counts the failure. A failing statement is only logged. */
    method ProcessMessage(message: Entry, a: Attempt)
      requires outbox.db.Valid() && outbox.db.open
      modifies outbox.db, broker
      ensures outbox.db.Valid() && outbox.db.open && outbox.db.committed == old(outbox.db.committed)
      ensures outbox.db.aborted == (old(outbox.db.aborted) || !a.dbOk)
      ensures !outbox.db.aborted ==> outbox.db.pending == Then(old(outbox.db.pending), EffectOf(message.id, a))
      ensures broker.accepted == old(broker.accepted) + if Queued(a.outcome) then [message.message] else []
    {
      var err := broker.Publish(message.message, a.outcome);
      if err {
        var _ := outbox.Fail(message.id, MAX_ATTEMPTS, a.dbOk);
        return;
      }
      var _ := outbox.Delete(message.id, a.dbOk);
    }

    /** One batch. `ids` is the batch taken and `meanwhile` the table as others, who only insert rows or work on other
        batches, leave it by the time the batch commits. Unless the transaction could not begin or fetch, the broker
        holds what was delivered and the table is settled - or, if any statement or the commit failed, left alone. */
    method Process(locked: set<nat>, beginOk: bool, fetchOk: bool, env: nat -> Attempt, meanwhile: Table,
        commitOk: bool)
        returns (ghost ids: seq<nat>)
      requires outbox.db.Valid() && !outbox.db.open
      modifies outbox.db, broker
      ensures outbox.db.Valid() && !outbox.db.open
      ensures IsFetch(old(outbox.db.committed).table, locked, 100, ids) || (!(beginOk && fetchOk) && ids == [])
      ensures outbox.db.committed.table ==
        var b := Played(ids, env, |ids|);
        if !(beginOk && fetchOk) then old(outbox.db.committed).table
        else if commitOk && !b.poisoned then Settle(meanwhile, b)
        else meanwhile
      ensures broker.accepted == old(broker.accepted) + Delivered(old(outbox.db.committed).table, ids, env, |ids|)
    {
      ids := [];
      var begun := outbox.db.Begin(beginOk);
      if !begun { return; }
      if !fetchOk {
        outbox.db.Rollback();
        return;
      }
      var messages := outbox.FetchPending(BATCH_SIZE, locked);
      ids := IdsOf(messages);
      ProcessAll(messages, ids, env, outbox.db.committed.table, meanwhile);
      outbox.db.Elapse(Db(meanwhile));
      var _ := outbox.db.Commit(commitOk);
    }

    /** The loop over the batch. */
    method ProcessAll(messages: seq<Entry>, ghost ids: seq<nat>, env: nat -> Attempt, ghost table: Table,
        ghost meanwhile: Table)
      requires outbox.db.Valid() && outbox.db.open && !outbox.db.aborted && outbox.db.pending == Same<Db>()
      requires |ids| == |messages| && Ascending(ids) && forall id :: id in ids ==> id in table
      requires forall i :: 0 <= i < |ids| ==> messages[i] == Entry(ids[i], table[ids[i]].message)
      modifies outbox.db, broker
      ensures outbox.db.Valid() && outbox.db.open && outbox.db.committed == old(outbox.db.committed)
      ensures outbox.db.aborted == Played(ids, env, |ids|).poisoned
      ensures !outbox.db.aborted ==>
        outbox.db.pending(Db(meanwhile)).table == Settle(meanwhile, Played(ids, env, |ids|))
      ensures broker.accepted == old(broker.accepted) + Delivered(table, ids, env, |ids|)
    {
      for i := 0 to |messages|
        invariant outbox.db.Valid() && outbox.db.open && outbox.db.committed == old(outbox.db.committed)
        invariant outbox.db.aborted == Played(ids, env, i).poisoned
        invariant !outbox.db.aborted ==>
          outbox.db.pending(Db(meanwhile)).table == Midway(meanwhile, Played(ids, env, i))
        invariant broker.accepted == old(broker.accepted) + Delivered(table, ids, env, i)
      {
        if !outbox.db.aborted { OneMoreRow(outbox.db.pending, meanwhile, ids, env, i); }
        ProcessMessage(messages[i], env(i));
      }
      MidwayEnds(meanwhile, Played(ids, env, |ids|));
    }
  }

  // ----- the loop is a run of the machine -----

  function Processing(relay: nat, env: nat -> Attempt, n: nat): seq<Step> {
    if n == 0 then [] else Processing(relay, env, n - 1) + [Process(relay, env(n - 1))]
  }

  ghost function Taken(s: State, relay: nat, ids: seq<nat>, env: nat -> Attempt, n: nat): State
    requires n <= |ids|
  {
    s.(open := s.open[relay := Played(ids, env, n)], sendLog := s.sendLog + Acknowledged(ids, env, n))
  }

  lemma TakenSteps(s: State, relay: nat, ids: seq<nat>, env: nat -> Attempt, n: nat)
    requires 1 <= n <= |ids| && (forall id :: id in ids ==> id in s.table)
    ensures
      var u, step := Taken(s, relay, ids, env, n - 1), Process(relay, env(n - 1));
      && Enabled(u, step) && Next(u, step) == Taken(s, relay, ids, env, n)
      && multiset(Delivered(s.table, ids, env, n - 1)) + Published(u, step) == multiset(Delivered(s.table, ids, env, n))
  {
    var u, step := Taken(s, relay, ids, env, n - 1), Process(relay, env(n - 1));
    assert Next(u, step).open == s.open[relay := Played(ids, env, n)];
    assert Next(u, step).sendLog == s.sendLog + Acknowledged(ids, env, n);
  }

  lemma TakenStarts(s: State, relay: nat, ids: seq<nat>, env: nat -> Attempt)
    requires Enabled(s, Fetch(relay, ids))
    ensures Publishes(s, [Fetch(relay, ids)], Taken(s, relay, ids, env, 0), multiset(Delivered(s.table, ids, env, 0)))
  {
    PublishesNothing(s);
    PublishesThen(s, [], s, multiset{}, Fetch(relay, ids));
    assert s.sendLog + Acknowledged(ids, env, 0) == s.sendLog;
  }

  /** One row more: the state after `n - 1` rows and one step of the machine. */
  lemma OneMoreStep(s: State, steps: seq<Step>, relay: nat, ids: seq<nat>, env: nat -> Attempt, n: nat)
    requires 1 <= n <= |ids| && (forall id :: id in ids ==> id in s.table)
    requires Publishes(s, steps, Taken(s, relay, ids, env, n - 1), multiset(Delivered(s.table, ids, env, n - 1)))
    ensures Publishes(s, steps + [Process(relay, env(n - 1))], Taken(s, relay, ids, env, n),
                      multiset(Delivered(s.table, ids, env, n)))
  {
    TakenSteps(s, relay, ids, env, n);
    PublishesThen(s, steps, Taken(s, relay, ids, env, n - 1), multiset(Delivered(s.table, ids, env, n - 1)),
                  Process(relay, env(n - 1)));
  }

  lemma ProcessingLonger(relay: nat, ids: seq<nat>, env: nat -> Attempt, n: nat)
    requires 1 <= n
    ensures [Fetch(relay, ids)] + Processing(relay, env, n)
         == [Fetch(relay, ids)] + Processing(relay, env, n - 1) + [Process(relay, env(n - 1))]
  {
  }

  lemma {:induction false} ProcessingRuns(s: State, relay: nat, ids: seq<nat>, env: nat -> Attempt, n: nat)
    requires n <= |ids| && Enabled(s, Fetch(relay, ids))
    ensures Publishes(s, [Fetch(relay, ids)] + Processing(relay, env, n), Taken(s, relay, ids, env, n),
                      multiset(Delivered(s.table, ids, env, n)))
  {
    if n == 0 {
      TakenStarts(s, relay, ids, env);
      assert [Fetch(relay, ids)] + Processing(relay, env, 0) == [Fetch(relay, ids)];
    } else {
      ProcessingRuns(s, relay, ids, env, n - 1);
      OneMoreStep(s, [Fetch(relay, ids)] + Processing(relay, env, n - 1), relay, ids, env, n);
      ProcessingLonger(relay, ids, env, n);
    }
  }

  lemma TakenCloses(s: State, relay: nat, ids: seq<nat>, env: nat -> Attempt, entries: seq<Entry>, commitOk: bool)
    requires Enabled(s, Fetch(relay, ids)) && Enabled(s, Commit(entries))
    ensures
      var u, b, meanwhile := Taken(s, relay, ids, env, |ids|), Played(ids, env, |ids|), Insert(s.table, entries);
      && Enabled(u, Commit(entries)) && Enabled(Next(u, Commit(entries)), Close(relay, commitOk))
      && var t := Next(Next(u, Commit(entries)), Close(relay, commitOk));
         && t.table == (if commitOk && !b.poisoned then Settle(meanwhile, b) else meanwhile)
         && t.open == s.open && t.sendLog == s.sendLog + Acknowledged(ids, env, |ids|)
  {
    assert s.open[relay := Played(ids, env, |ids|)] - {relay} == s.open;
    assert forall id :: Issued(Taken(s, relay, ids, env, |ids|), id) <==> Issued(s, id);
  }

  /** What the loop does is what the machine does by a fetch, one step for each row and a close, with `entries`
      committed by others in between: the same table, the same acknowledgements, and the same messages in the broker,
      those included whose publisher got an error all the same. */
  lemma BatchIsARun(s: State, relay: nat, ids: seq<nat>, env: nat -> Attempt, entries: seq<Entry>, commitOk: bool)
      returns (steps: seq<Step>, t: State)
    requires Enabled(s, Fetch(relay, ids)) && Enabled(s, Commit(entries))
    ensures Publishes(s, steps, t, multiset(Delivered(s.table, ids, env, |ids|))) && t.open == s.open
    ensures
      var b, meanwhile := Played(ids, env, |ids|), Insert(s.table, entries);
      t.table == if commitOk && !b.poisoned then Settle(meanwhile, b) else meanwhile
    ensures t.sendLog == s.sendLog + Acknowledged(ids, env, |ids|)
  {
    var u, sent := Taken(s, relay, ids, env, |ids|), multiset(Delivered(s.table, ids, env, |ids|));
    steps := [Fetch(relay, ids)] + Processing(relay, env, |ids|);
    ProcessingRuns(s, relay, ids, env, |ids|);
    TakenCloses(s, relay, ids, env, entries, commitOk);
    PublishesThen(s, steps, u, sent, Commit(entries));
    var v := Next(u, Commit(entries));
    PublishesThen(s, steps + [Commit(entries)], v, sent, Close(relay, commitOk));
    t := Next(v, Close(relay, commitOk));
    steps := steps + [Commit(entries)] + [Close(relay, commitOk)];
  }
}
