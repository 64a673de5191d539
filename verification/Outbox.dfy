/** The outbox table and the relays that drain it, as a state machine over statements.

    Any number of relays run at once. Each opens a transaction, locks a batch, publishes the rows
    of the batch one by one and ends with a commit or an abort; a crash aborts. Both services have
    the same table and the same relay, so one model serves both. */
module Outbox {
  import opened Contracts

  const BATCH_SIZE := 100
  const MAX_ATTEMPTS := 5

  datatype Status = Pending | Failed

  datatype Row = Row(message: Message, status: Status, attempts: nat)

  type Table = map<nat, Row>

  datatype Entry = Entry(id: nat, message: Message)

  // ----- statements -----

  function FreshRow(message: Message): Row {
    Row(message, Pending, 0)
  }

  function FailRow(row: Row, maxAttempts: nat): Row {
    Row(row.message, if row.attempts + 1 >= maxAttempts then Failed else Pending, row.attempts + 1)
  }

  predicate IsPending(table: Table, id: nat) {
    id in table && table[id].status.Pending?
  }

  predicate Ascending(ids: seq<nat>) {
    forall i, j :: 0 <= i < j < |ids| ==> ids[i] < ids[j]
  }

  /** `ids` is what the fetch query may return: the first `limit` PENDING rows, by ascending id,
      among those no other transaction has locked. */
  ghost predicate IsFetch(table: Table, locked: set<nat>, limit: nat, ids: seq<nat>) {
    && Ascending(ids)
    && |ids| <= limit
    && (forall id :: id in ids ==> IsPending(table, id) && id !in locked)
    && (forall id :: IsPending(table, id) && id !in locked && id !in ids ==>
          |ids| == limit && forall other :: other in ids ==> other < id)
  }

  predicate DistinctIds(entries: seq<Entry>) {
    forall i, j :: 0 <= i < j < |entries| ==> entries[i].id != entries[j].id
  }

  function Insert(table: Table, entries: seq<Entry>): Table
    requires DistinctIds(entries)
  {
    table + map e | e in entries :: e.id := FreshRow(e.message)
  }

  function IdsOf(log: seq<Entry>): (ids: seq<nat>)
    ensures |ids| == |log| && forall i :: 0 <= i < |log| ==> ids[i] == log[i].id
  {
    seq(|log|, i requires 0 <= i < |log| => log[i].id)
  }

  // ----- the machine -----

  /** One message of a batch: what publishing it did, and whether the statement after it
      (the delete, or the update that counts the failure) succeeded. */
  datatype Attempt = Attempt(outcome: Outcome, dbOk: bool)

  /** An open transaction of a relay. `sent` are the rows whose publish returned nil. A failed
      statement poisons the transaction: the loop goes on publishing, but nothing will commit. */
  datatype Batch = Batch(ids: seq<nat>, done: nat, poisoned: bool, sent: set<nat>)

  /** `insertLog`: every row ever committed, in commit order. `sendLog`: one id for every publish that
      returned nil. `wasted[id]`: how many aborted batches had published row `id`.
      `commits`: how many batches have committed. */
  datatype State = State(
    table: Table, open: map<nat, Batch>,
    insertLog: seq<Entry>, sendLog: seq<nat>, wasted: multiset<nat>, commits: nat)

  datatype Step =
    | Commit(entries: seq<Entry>)               // another transaction commits these new rows
    | Fetch(relay: nat, ids: seq<nat>)          // begin, lock a batch
    | Process(relay: nat, attempt: Attempt)     // publish the next row, then its statement
    | Close(relay: nat, ok: bool)               // commit, which may fail
    | Crash(relay: nat)                         // rollback at any point

  const INITIAL := State(map[], map[], [], [], multiset{}, 0)

  ghost predicate Issued(s: State, id: nat) {
    exists e :: e in s.insertLog && e.id == id
  }

  ghost predicate LockedBy(s: State, relay: nat, id: nat) {
    relay in s.open && id in s.open[relay].ids
  }

  ghost function Locked(s: State): set<nat> {
    set relay, id | relay in s.open && id in s.open[relay].ids :: id
  }

  function Advance(b: Batch, a: Attempt): Batch
    requires b.done < |b.ids|
  {
    Batch(b.ids, b.done + 1, b.poisoned || !a.dbOk,
          if a.outcome.Confirmed? then b.sent + {b.ids[b.done]} else b.sent)
  }

  /** The table after an unpoisoned batch commits: published rows are gone, the others are counted. */
  function Settle(table: Table, b: Batch): Table {
    map id | id in table && id !in b.sent :: if id in b.ids then FailRow(table[id], MAX_ATTEMPTS) else table[id]
  }

  function Abort(s: State, relay: nat): State
    requires relay in s.open
  {
    s.(open := s.open - {relay}, wasted := s.wasted + multiset(s.open[relay].sent))
  }

  ghost predicate Enabled(s: State, step: Step) {
    match step
    case Commit(entries) =>
      DistinctIds(entries) && forall e :: e in entries ==> !Issued(s, e.id)
    case Fetch(relay, ids) =>
      relay !in s.open && IsFetch(s.table, Locked(s), BATCH_SIZE, ids)
    case Process(relay, _) =>
      relay in s.open && s.open[relay].done < |s.open[relay].ids|
    case Close(relay, _) =>
      relay in s.open && s.open[relay].done == |s.open[relay].ids|
    case Crash(relay) =>
      relay in s.open
  }

  ghost function Next(s: State, step: Step): State
    requires Enabled(s, step)
  {
    match step
    case Commit(entries) =>
      s.(table := Insert(s.table, entries), insertLog := s.insertLog + entries)
    case Fetch(relay, ids) =>
      s.(open := s.open[relay := Batch(ids, 0, false, {})])
    case Process(relay, a) =>
      var b := s.open[relay];
      s.(open := s.open[relay := Advance(b, a)],
         sendLog := if a.outcome.Confirmed? then s.sendLog + [b.ids[b.done]] else s.sendLog)
    case Close(relay, ok) =>
      var b := s.open[relay];
      if ok && !b.poisoned
      then s.(table := Settle(s.table, b), open := s.open - {relay}, commits := s.commits + 1)
      else Abort(s, relay)
    case Crash(relay) =>
      Abort(s, relay)
  }

  /** `t` is reached from `s` by the given steps. */
  ghost predicate Run(s: State, steps: seq<Step>, t: State)
    decreases |steps|
  {
    if steps == [] then t == s
    else Enabled(s, steps[0]) && Run(Next(s, steps[0]), steps[1..], t)
  }

  lemma {:induction false} RunThen(s: State, steps: seq<Step>, t: State, step: Step)
    requires Run(s, steps, t) && Enabled(t, step)
    ensures Run(s, steps + [step], Next(t, step))
    decreases |steps|
  {
    if steps == [] {
      assert Run(Next(s, step), [], Next(t, step));
      assert ([] + [step])[1..] == [];
    } else {
      RunThen(Next(s, steps[0]), steps[1..], t, step);
      assert (steps + [step])[1..] == steps[1..] + [step];
    }
  }

  /** What a relay step puts into the broker. */
  function Published(s: State, step: Step): multiset<Message> {
    if step.Process? && step.relay in s.open && s.open[step.relay].done < |s.open[step.relay].ids|
       && Queued(step.attempt.outcome) && s.open[step.relay].ids[s.open[step.relay].done] in s.table
    then multiset{s.table[s.open[step.relay].ids[s.open[step.relay].done]].message}
    else multiset{}
  }

  /** What all the steps of a run put into the broker. */
  ghost function PublishedBy(s: State, steps: seq<Step>): multiset<Message>
    decreases |steps|
  {
    if steps == [] || !Enabled(s, steps[0]) then multiset{}
    else Published(s, steps[0]) + PublishedBy(Next(s, steps[0]), steps[1..])
  }

  lemma {:induction false} PublishedThen(s: State, steps: seq<Step>, t: State, step: Step)
    requires Run(s, steps, t) && Enabled(t, step)
    ensures PublishedBy(s, steps + [step]) == PublishedBy(s, steps) + Published(t, step)
    decreases |steps|
  {
    var all := steps + [step];
    if steps == [] {
      assert all[0] == step && all[1..] == [];
    } else {
      assert all[0] == steps[0] && all[1..] == steps[1..] + [step];
      PublishedThen(Next(s, steps[0]), steps[1..], t, step);
    }
  }

  /** A run that puts exactly these messages into the broker. */
  ghost predicate Publishes(s: State, steps: seq<Step>, t: State, messages: multiset<Message>) {
    Run(s, steps, t) && PublishedBy(s, steps) == messages
  }

  lemma PublishesNothing(s: State)
    ensures Publishes(s, [], s, multiset{})
  {
  }

  lemma PublishesThen(s: State, steps: seq<Step>, t: State, messages: multiset<Message>, step: Step)
    requires Publishes(s, steps, t, messages) && Enabled(t, step)
    ensures Publishes(s, steps + [step], Next(t, step), messages + Published(t, step))
  {
    RunThen(s, steps, t, step);
    PublishedThen(s, steps, t, step);
  }

  // ----- the invariant -----

  predicate BatchFits(table: Table, b: Batch) {
    && Ascending(b.ids) && |b.ids| <= BATCH_SIZE
    && b.done <= |b.ids|
    && (forall id :: id in b.ids ==> IsPending(table, id))
    && (forall id :: id in b.sent ==> id in b.ids[..b.done])
  }

  ghost predicate Batches(s: State) {
    && (forall relay :: relay in s.open ==> BatchFits(s.table, s.open[relay]))
    && (forall r, q, id :: LockedBy(s, r, id) && LockedBy(s, q, id) ==> r == q)
  }

  ghost predicate Rows(s: State) {
    && DistinctIds(s.insertLog)
    && (forall id :: id in s.table ==>
          && Entry(id, s.table[id].message) in s.insertLog
          && s.table[id].attempts <= MAX_ATTEMPTS
          && (s.table[id].status.Failed? <==> s.table[id].attempts == MAX_ATTEMPTS))
  }

  /** Row `id` has been published by a batch that is still open. */
  ghost predicate InFlight(s: State, id: nat) {
    exists relay :: relay in s.open && id in s.open[relay].sent
  }

  function Sends(s: State, id: nat): nat {
    multiset(s.sendLog)[id]
  }

  /** Successful publishes of a row are exactly the wasted ones plus, if the row was published
      by a batch that committed or is still open, one. */
  ghost predicate Balance(s: State) {
    && (forall id :: Issued(s, id) ==>
          Sends(s, id) == s.wasted[id] + if id !in s.table || InFlight(s, id) then 1 else 0)
    && (forall id :: !Issued(s, id) ==> Sends(s, id) == 0 && s.wasted[id] == 0)
  }

  ghost predicate Inv(s: State) {
    Batches(s) && Rows(s) && Balance(s)
  }

  lemma InsertedRows(s: State, entries: seq<Entry>)
    requires Rows(s) && Enabled(s, Commit(entries))
    ensures forall id :: id in s.table ==> Issued(s, id)
    ensures forall id :: id in s.table ==> id in Insert(s.table, entries) && Insert(s.table, entries)[id] == s.table[id]
    ensures forall e :: e in entries ==>
              e.id in Insert(s.table, entries) && Insert(s.table, entries)[e.id] == FreshRow(e.message)
    ensures forall id :: id in Insert(s.table, entries) && id !in s.table ==> exists e :: e in entries && e.id == id
  {
    forall id | id in s.table ensures Issued(s, id) {
      assert Entry(id, s.table[id].message) in s.insertLog;
    }
  }

  lemma IssuedAfter(s: State, entries: seq<Entry>, id: nat)
    requires Enabled(s, Commit(entries))
    ensures Issued(Next(s, Commit(entries)), id) <==> Issued(s, id) || exists e :: e in entries && e.id == id
  {
    var t := Next(s, Commit(entries));
    if Issued(s, id) { var e :| e in s.insertLog && e.id == id; assert e in t.insertLog; }
    if e :| e in entries && e.id == id { assert e in t.insertLog; }
  }

  lemma CommitKeepsRows(s: State, entries: seq<Entry>)
    requires Rows(s) && Enabled(s, Commit(entries))
    ensures Rows(Next(s, Commit(entries)))
  {
    var t := Next(s, Commit(entries));
    InsertedRows(s, entries);
    forall i, j | 0 <= i < j < |t.insertLog| ensures t.insertLog[i].id != t.insertLog[j].id {
      if i < |s.insertLog| <= j { assert t.insertLog[j] in entries && t.insertLog[i] in s.insertLog; }
    }
    forall id | id in t.table
      ensures Entry(id, t.table[id].message) in t.insertLog
      ensures t.table[id].attempts <= MAX_ATTEMPTS
      ensures t.table[id].status.Failed? <==> t.table[id].attempts == MAX_ATTEMPTS
    {
      if id !in s.table { var e :| e in entries && e.id == id; assert t.table[e.id] == FreshRow(e.message); }
    }
  }

  lemma CommitKeeps(s: State, entries: seq<Entry>)
    requires Inv(s) && Enabled(s, Commit(entries))
    ensures Inv(Next(s, Commit(entries)))
  {
    var t := Next(s, Commit(entries));
    InsertedRows(s, entries);
    CommitKeepsRows(s, entries);
    assert Batches(t) by {
      assert forall r, i :: LockedBy(t, r, i) <==> LockedBy(s, r, i);
    }
    assert Balance(t) by {
      assert forall id :: InFlight(t, id) <==> InFlight(s, id);
      forall id
        ensures Issued(t, id) ==> Sends(t, id) == t.wasted[id] + if id !in t.table || InFlight(t, id) then 1 else 0
        ensures !Issued(t, id) ==> Sends(t, id) == 0 && t.wasted[id] == 0
      {
        IssuedAfter(s, entries, id);
        if !Issued(s, id) && InFlight(s, id) {
          var r :| r in s.open && id in s.open[r].sent;
          assert LockedBy(s, r, id);
        }
      }
    }
  }

  lemma FetchKeeps(s: State, relay: nat, ids: seq<nat>)
    requires Inv(s) && Enabled(s, Fetch(relay, ids))
    ensures Inv(Next(s, Fetch(relay, ids)))
  {
    var t := Next(s, Fetch(relay, ids));
    forall r, q, id | LockedBy(t, r, id) && LockedBy(t, q, id) ensures r == q {
      if r != relay { assert LockedBy(s, r, id); assert id in Locked(s); }
      if q != relay { assert LockedBy(s, q, id); assert id in Locked(s); }
    }
    forall id ensures InFlight(t, id) <==> InFlight(s, id) {
      if r :| r in s.open && id in s.open[r].sent { assert r in t.open && id in t.open[r].sent; }
      if r :| r in t.open && id in t.open[r].sent { assert r in s.open && id in s.open[r].sent; }
    }
    assert forall id :: Issued(t, id) <==> Issued(s, id);
  }

  lemma ProcessKeepsBatches(s: State, relay: nat, a: Attempt)
    requires Batches(s) && Enabled(s, Process(relay, a))
    ensures Batches(Next(s, Process(relay, a)))
    ensures var b := s.open[relay]; b.ids[b.done] !in b.sent && b.ids[b.done] in s.table
  {
    var t := Next(s, Process(relay, a));
    var b := s.open[relay];
    assert BatchFits(s.table, b);
    assert b.ids[..b.done + 1] == b.ids[..b.done] + [b.ids[b.done]];
    assert BatchFits(t.table, t.open[relay]);
    assert IsPending(s.table, b.ids[b.done]);
    assert forall r, i :: LockedBy(t, r, i) <==> LockedBy(s, r, i);
  }

  lemma OneInFlight(s: State, relay: nat, id: nat)
    requires Batches(s) && LockedBy(s, relay, id) && id !in s.open[relay].sent
    ensures !InFlight(s, id)
  {
    if r :| r in s.open && id in s.open[r].sent {
      assert BatchFits(s.table, s.open[r]);
      assert LockedBy(s, r, id);
    }
  }

  lemma ProcessInFlight(s: State, relay: nat, a: Attempt, id: nat)
    requires Enabled(s, Process(relay, a))
    ensures InFlight(Next(s, Process(relay, a)), id) <==>
      InFlight(s, id) || (id == s.open[relay].ids[s.open[relay].done] && a.outcome.Confirmed?)
  {
    var t := Next(s, Process(relay, a));
    if r :| r in s.open && id in s.open[r].sent { assert r in t.open && id in t.open[r].sent; }
    if r :| r in t.open && id in t.open[r].sent { assert r in s.open; }
    if id == s.open[relay].ids[s.open[relay].done] && a.outcome.Confirmed? { assert id in t.open[relay].sent; }
  }

  lemma ProcessKeepsBalance(s: State, relay: nat, a: Attempt)
    requires Inv(s) && Enabled(s, Process(relay, a))
    ensures Balance(Next(s, Process(relay, a)))
  {
    var t := Next(s, Process(relay, a));
    var b := s.open[relay];
    var id := b.ids[b.done];
    ProcessKeepsBatches(s, relay, a);
    OneInFlight(s, relay, id);
    assert Entry(id, s.table[id].message) in s.insertLog;
    forall i
      ensures Issued(t, i) ==> Sends(t, i) == t.wasted[i] + if i !in t.table || InFlight(t, i) then 1 else 0
      ensures !Issued(t, i) ==> Sends(t, i) == 0 && t.wasted[i] == 0
    {
      assert Issued(t, i) <==> Issued(s, i);
      ProcessInFlight(s, relay, a, i);
      assert Sends(t, i) == Sends(s, i) + if i == id && a.outcome.Confirmed? then 1 else 0;
    }
  }

  /** Ending a batch takes exactly its published rows out of flight. */
  lemma BatchEnds(s: State, t: State, relay: nat, id: nat)
    requires Batches(s) && relay in s.open && t.open == s.open - {relay}
    ensures id in s.open[relay].sent ==> LockedBy(s, relay, id) && id in s.table && InFlight(s, id) && !InFlight(t, id)
    ensures id !in s.open[relay].sent ==> (InFlight(t, id) <==> InFlight(s, id))
  {
    assert BatchFits(s.table, s.open[relay]);
    if id in s.open[relay].sent {
      assert LockedBy(s, relay, id);
      if r :| r in t.open && id in t.open[r].sent {
        assert BatchFits(s.table, s.open[r]);
        assert LockedBy(s, r, id);
      }
    } else {
      if r :| r in s.open && id in s.open[r].sent { assert r in t.open && id in t.open[r].sent; }
      if r :| r in t.open && id in t.open[r].sent { assert r in s.open && id in s.open[r].sent; }
    }
  }

  lemma AbortKeeps(s: State, relay: nat)
    requires Inv(s) && relay in s.open
    ensures Inv(Abort(s, relay))
  {
    var t := Abort(s, relay);
    assert Batches(t) by {
      assert forall r, i :: LockedBy(t, r, i) ==> LockedBy(s, r, i);
    }
    forall id
      ensures Issued(t, id) ==> Sends(t, id) == t.wasted[id] + if id !in t.table || InFlight(t, id) then 1 else 0
      ensures !Issued(t, id) ==> Sends(t, id) == 0 && t.wasted[id] == 0
    {
      assert Issued(t, id) <==> Issued(s, id);
      BatchEnds(s, t, relay, id);
      if id in s.table { assert Entry(id, s.table[id].message) in s.insertLog; }
    }
  }

  lemma SettleKeepsBatches(s: State, relay: nat)
    requires Batches(s) && Enabled(s, Close(relay, true)) && !s.open[relay].poisoned
    ensures Batches(Next(s, Close(relay, true)))
  {
    var t := Next(s, Close(relay, true));
    var b := s.open[relay];
    assert forall id :: id in b.sent ==> id in b.ids;
    assert forall r, i :: LockedBy(t, r, i) ==> LockedBy(s, r, i) && r != relay;
    forall r | r in t.open ensures BatchFits(t.table, t.open[r]) {
      assert BatchFits(s.table, s.open[r]);
      forall i | i in t.open[r].ids ensures IsPending(t.table, i) {
        assert LockedBy(s, r, i) && !LockedBy(s, relay, i);
      }
    }
  }

  lemma SettleKeepsRows(s: State, relay: nat)
    requires Batches(s) && Rows(s) && Enabled(s, Close(relay, true)) && !s.open[relay].poisoned
    ensures Rows(Next(s, Close(relay, true)))
  {
    var t := Next(s, Close(relay, true));
    assert BatchFits(s.table, s.open[relay]);
    forall id | id in t.table
      ensures Entry(id, t.table[id].message) in t.insertLog
      ensures t.table[id].attempts <= MAX_ATTEMPTS
      ensures t.table[id].status.Failed? <==> t.table[id].attempts == MAX_ATTEMPTS
    {
      if id in s.open[relay].ids { assert IsPending(s.table, id); }
    }
  }

  lemma SettleKeepsBalance(s: State, relay: nat)
    requires Inv(s) && Enabled(s, Close(relay, true)) && !s.open[relay].poisoned
    ensures Balance(Next(s, Close(relay, true)))
  {
    var t := Next(s, Close(relay, true));
    forall id
      ensures Issued(t, id) ==> Sends(t, id) == t.wasted[id] + if id !in t.table || InFlight(t, id) then 1 else 0
      ensures !Issued(t, id) ==> Sends(t, id) == 0 && t.wasted[id] == 0
    {
      assert Issued(t, id) <==> Issued(s, id);
      BatchEnds(s, t, relay, id);
    }
  }

  lemma StepKeeps(s: State, step: Step)
    requires Inv(s) && Enabled(s, step)
    ensures Inv(Next(s, step))
  {
    match step
    case Commit(entries) => CommitKeeps(s, entries);
    case Fetch(relay, ids) => FetchKeeps(s, relay, ids);
    case Process(relay, a) => ProcessKeepsBatches(s, relay, a); ProcessKeepsBalance(s, relay, a);
    case Close(relay, ok) =>
      if ok && !s.open[relay].poisoned {
        SettleKeepsBatches(s, relay);
        SettleKeepsRows(s, relay);
        SettleKeepsBalance(s, relay);
      } else {
        AbortKeeps(s, relay);
      }
    case Crash(relay) => AbortKeeps(s, relay);
  }

  lemma {:induction false} RunKeeps(s: State, steps: seq<Step>, t: State)
    requires Inv(s) && Run(s, steps, t)
    ensures Inv(t)
    decreases |steps|
  {
    if steps != [] {
      StepKeeps(s, steps[0]);
      RunKeeps(Next(s, steps[0]), steps[1..], t);
    }
  }

  // ----- what the invariant says -----

  /** At least once, with exact dead-lettering: in every reachable state a committed row is still in the
      table or the broker accepted it, FAILED holds exactly at the attempt limit, PENDING exactly below it. */
  lemma AtLeastOnce(steps: seq<Step>, s: State, e: Entry)
    requires Run(INITIAL, steps, s) && e in s.insertLog
    ensures e.id in s.table ==> s.table[e.id].message == e.message
    ensures e.id !in s.table ==> e.id in s.sendLog
    ensures forall id :: id in s.table ==> (s.table[id].status.Failed? <==> s.table[id].attempts == 5)
    ensures forall id :: id in s.table ==> (s.table[id].status.Pending? <==> s.table[id].attempts < 5)
  {
    RunKeeps(INITIAL, steps, s);
    Kept(s, e);
  }

  lemma Kept(s: State, e: Entry)
    requires Inv(s) && e in s.insertLog
    ensures e.id in s.table ==> s.table[e.id].message == e.message
    ensures e.id !in s.table ==> e.id in s.sendLog
  {
    assert Issued(s, e.id);
    if e.id in s.table { assert Entry(e.id, s.table[e.id].message) in s.insertLog; }
    else { assert Sends(s, e.id) > 0; assert e.id in multiset(s.sendLog); }
  }

  /** Duplicates come only from aborts: open batches never share a row, and a row is published successfully
      at most once more than the number of aborted batches that had published it - never, once a batch
      that published it has committed. */
  lemma DuplicatesComeFromAborts(steps: seq<Step>, s: State, id: nat)
    requires Run(INITIAL, steps, s)
    ensures forall r, q, i :: LockedBy(s, r, i) && LockedBy(s, q, i) ==> r == q
    ensures s.wasted[id] <= Sends(s, id) <= s.wasted[id] + 1
    ensures id in s.table && !InFlight(s, id) ==> Sends(s, id) == s.wasted[id]
  {
    RunKeeps(INITIAL, steps, s);
    if id in s.table { assert Entry(id, s.table[id].message) in s.insertLog; assert Issued(s, id); }
  }
}
