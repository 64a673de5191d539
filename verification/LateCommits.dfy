/** The relay takes rows by id, and a transaction that took its id early may commit late: when that shows. */
module LateCommits {
  import opened Contracts
  import opened Outbox
  import opened RelayOrder
  import RelayFairness

  /** Whatever the relay does with these rows, committed in this order, it publishes them in this order. */
  ghost predicate KeepsOrder(entries: seq<Entry>, relay: nat) {
    forall steps, s ::
      Run(INITIAL, steps, s) && (forall step :: step in steps ==> Smooth(step, relay)) && s.insertLog == entries ==>
        s.sendLog <= IdsOf(entries)
  }

  /** The first `k` rows have been committed and published, one batch each. */
  function Drained(entries: seq<Entry>, k: nat): State
    requires k <= |entries|
  {
    State(map[], map[], entries[..k], IdsOf(entries[..k]), multiset{}, k)
  }

  ghost predicate SmoothRun(steps: seq<Step>, s: State, relay: nat) {
    Run(INITIAL, steps, s) && forall step :: step in steps ==> Smooth(step, relay)
  }

  lemma SmoothThen(steps: seq<Step>, s: State, step: Step, relay: nat)
    requires SmoothRun(steps, s, relay) && Enabled(s, step) && Smooth(step, relay)
    ensures SmoothRun(steps + [step], Next(s, step), relay)
  {
    RunThen(INITIAL, steps, s, step);
  }

  /** The rest of the rows are committed in one transaction. */
  function Waiting(entries: seq<Entry>, k: nat, n: nat): State
    requires k <= n <= |entries| && DistinctIds(entries)
  {
    State(Insert(map[], entries[k..n]), map[], entries[..n], IdsOf(entries[..k]), multiset{}, k)
  }

  lemma CommitMore(entries: seq<Entry>, k: nat, n: nat, steps: seq<Step>, relay: nat)
    requires k <= n <= |entries| && DistinctIds(entries) && SmoothRun(steps, Drained(entries, k), relay)
    ensures SmoothRun(steps + [Commit(entries[k..n])], Waiting(entries, k, n), relay)
  {
    var s, more := Drained(entries, k), entries[k..n];
    forall e | e in more ensures !Issued(s, e.id) {
      var i :| 0 <= i < |more| && more[i] == e;
      forall j | 0 <= j < k ensures entries[j].id != entries[k + i].id { }
    }
    SmoothThen(steps, s, Commit(more), relay);
    assert entries[..k] + more == entries[..n];
  }

  lemma SendFirst(steps: seq<Step>, s: State, ids: seq<nat>, relay: nat) returns (steps': seq<Step>, t: State)
    requires SmoothRun(steps, s, relay) && s.open == map[] && IsFetch(s.table, {}, BATCH_SIZE, ids) && ids != []
    ensures SmoothRun(steps', t, relay)
    ensures t == s.(open := map[relay := Batch(ids, 1, false, {ids[0]})], sendLog := s.sendLog + [ids[0]])
  {
    assert Locked(s) == {};
    SmoothThen(steps, s, Fetch(relay, ids), relay);
    var u := s.(open := map[relay := Batch(ids, 0, false, {})]);
    assert Next(s, Fetch(relay, ids)) == u;
    var process := Process(relay, Attempt(Confirmed, true));
    SmoothThen(steps + [Fetch(relay, ids)], u, process, relay);
    steps', t := steps + [Fetch(relay, ids)] + [process], Next(u, process);
    assert Advance(u.open[relay], process.attempt) == Batch(ids, 1, false, {ids[0]});
    assert t.open == map[relay := Batch(ids, 1, false, {ids[0]})];
  }

  lemma WaitingRows(entries: seq<Entry>, k: nat, n: nat, i: nat)
    requires k <= i < n <= |entries| && DistinctIds(entries)
    ensures IsPending(Waiting(entries, k, n).table, entries[i].id)
    ensures forall id :: id in Waiting(entries, k, n).table ==> IsPending(Waiting(entries, k, n).table, id)
  {
    assert entries[k..n][i - k] == entries[i] && entries[i] in entries[k..n];
  }

  lemma OneRow(entries: seq<Entry>, k: nat)
    requires k < |entries| && DistinctIds(entries)
    ensures Waiting(entries, k, k + 1).table == map[entries[k].id := FreshRow(entries[k].message)]
  {
    assert entries[k..k + 1] == [entries[k]];
  }

  lemma CloseOne(entries: seq<Entry>, k: nat, u: State, relay: nat)
    requires k < |entries| && DistinctIds(entries)
    requires
      var s, id := Waiting(entries, k, k + 1), entries[k].id;
      u == s.(open := map[relay := Batch([id], 1, false, {id})], sendLog := s.sendLog + [id])
    ensures Enabled(u, Close(relay, true)) && Next(u, Close(relay, true)) == Drained(entries, k + 1)
  {
    OneRow(entries, k);
    assert Settle(u.table, u.open[relay]) == map[];
    assert u.open - {relay} == map[];
    assert IdsOf(entries[..k + 1]) == IdsOf(entries[..k]) + [entries[k].id];
  }

  /** A committed row on its own is fetched, published and deleted. */
  lemma DrainOne(entries: seq<Entry>, k: nat, steps: seq<Step>, relay: nat) returns (steps': seq<Step>)
    requires k < |entries| && DistinctIds(entries) && SmoothRun(steps, Drained(entries, k), relay)
    ensures SmoothRun(steps', Drained(entries, k + 1), relay)
  {
    var e := entries[k];
    CommitMore(entries, k, k + 1, steps, relay);
    OneRow(entries, k);
    var s := Waiting(entries, k, k + 1);
    var u;
    steps', u := SendFirst(steps + [Commit(entries[k..k + 1])], s, [e.id], relay);
    SmoothThen(steps', u, Close(relay, true), relay);
    steps' := steps' + [Close(relay, true)];
    CloseOne(entries, k, u, relay);
  }

  lemma {:induction false} Drain(entries: seq<Entry>, k: nat, relay: nat) returns (steps: seq<Step>)
    requires k <= |entries| && DistinctIds(entries)
    ensures SmoothRun(steps, Drained(entries, k), relay)
  {
    if k == 0 {
      steps := [];
      assert Drained(entries, 0) == INITIAL;
    } else {
      steps := Drain(entries, k - 1, relay);
      steps := DrainOne(entries, k - 1, steps, relay);
    }
  }

  /** With nothing locked, a fetch takes the least of all rows first. */
  lemma SomeFetch(table: Table) returns (ids: seq<nat>)
    requires table != map[] && forall id :: id in table ==> IsPending(table, id)
    ensures IsFetch(table, {}, BATCH_SIZE, ids) && ids != [] && forall id :: id in table ==> ids[0] <= id
  {
    var all := RelayFairness.InOrder(table.Keys);
    assert forall id :: id in table <==> id in all by {
      forall id ensures id in table <==> id in all { assert id in RelayFairness.Ids(all) <==> id in all; }
    }
    ids := if |all| <= BATCH_SIZE then all else all[..BATCH_SIZE];
    FirstOnes(table, all, ids);
    var id :| id in table;
  }

  lemma FirstOnes(table: Table, all: seq<nat>, ids: seq<nat>)
    requires Ascending(all) && (forall id :: id in table <==> id in all)
    requires forall id :: id in table ==> IsPending(table, id)
    requires ids == if |all| <= BATCH_SIZE then all else all[..BATCH_SIZE]
    ensures IsFetch(table, {}, BATCH_SIZE, ids) && forall id :: id in table ==> ids != [] && ids[0] <= id
  {
    forall id | id in table
      ensures ids != [] && ids[0] <= id
      ensures id !in ids ==> |ids| == BATCH_SIZE && forall other :: other in ids ==> other < id
    {
      var i :| 0 <= i < |all| && all[i] == id;
      if id !in ids { assert i >= |ids|; }
    }
  }

  /** If row `i + 1` got a smaller id than row `i`, committing both before the next fetch publishes a later row
      first. */
  lemma LateCommitOvertakes(entries: seq<Entry>, i: nat, relay: nat) returns (steps: seq<Step>, s: State)
    requires DistinctIds(entries) && i + 1 < |entries| && entries[i + 1].id < entries[i].id
    ensures SmoothRun(steps, s, relay) && s.insertLog == entries && !(s.sendLog <= IdsOf(entries))
  {
    steps := Drain(entries, i, relay);
    CommitMore(entries, i, |entries|, steps, relay);
    var waiting := Waiting(entries, i, |entries|);
    WaitingRows(entries, i, |entries|, i + 1);
    var ids := SomeFetch(waiting.table);
    steps, s := SendFirst(steps + [Commit(entries[i..|entries|])], waiting, ids, relay);
    assert entries[..|entries|] == entries;
    NotAPrefix(IdsOf(entries), IdsOf(entries[..i]), ids[0]);
  }

  lemma NotAPrefix(log: seq<nat>, sent: seq<nat>, id: nat)
    requires |sent| < |log| && id != log[|sent|]
    ensures !(sent + [id] <= log)
  {
    assert (sent + [id])[|sent|] == id;
  }

  lemma {:induction false} FirstDescent(ids: seq<nat>) returns (i: nat)
    requires !Ascending(ids) && forall j, k :: 0 <= j < k < |ids| ==> ids[j] != ids[k]
    ensures i + 1 < |ids| && ids[i + 1] < ids[i]
  {
    var rest := ids[..|ids| - 1];
    if Ascending(rest) {
      i := |ids| - 2;
      if ids[i] < ids[i + 1] {
        forall j, k | 0 <= j < k < |ids| ensures ids[j] < ids[k] {
          if k == |ids| - 1 && j < i { assert rest[j] < rest[i]; }
          else if k < |ids| - 1 { assert rest[j] < rest[k]; }
        }
      }
    } else {
      i := FirstDescent(rest);
    }
  }

  /** Exactly the logs whose rows committed in the order of their ids are published in commit order. */
  lemma OrderKeptExactlyForAscendingIds(entries: seq<Entry>, relay: nat)
    requires DistinctIds(entries)
    ensures KeepsOrder(entries, relay) <==> Ascending(IdsOf(entries))
  {
    if Ascending(IdsOf(entries)) {
      forall steps, s
        | Run(INITIAL, steps, s) && (forall step :: step in steps ==> Smooth(step, relay)) && s.insertLog == entries
        ensures s.sendLog <= IdsOf(entries)
      {
        PublishesInInsertionOrder(steps, s, relay);
      }
    } else {
      var i := FirstDescent(IdsOf(entries));
      var steps, s := LateCommitOvertakes(entries, i, relay);
    }
  }
}
