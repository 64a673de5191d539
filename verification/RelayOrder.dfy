/** One relay and nothing going wrong: the relay is a first-in first-out queue. */
module RelayOrder {
  import opened Contracts
  import opened Outbox

  /** A step of the only relay in which no publish, statement or commit fails. */
  ghost predicate Smooth(step: Step, relay: nat) {
    match step
    case Commit(_) => true
    case Fetch(r, _) => r == relay
    case Process(_, a) => a == Attempt(Confirmed, true)
    case Close(_, ok) => ok
    case Crash(_) => false
  }

  /** The table holds exactly the rows of `rest`, all PENDING. */
  ghost predicate Consists(table: Table, rest: seq<nat>) {
    && (forall id :: id in table <==> id in rest)
    && (forall id :: id in table ==> IsPending(table, id))
  }

  /** The batch is the head of `rest`, published without a failure so far. */
  ghost predicate Sending(b: Batch, rest: seq<nat>) {
    && b.done <= |b.ids| <= |rest| && b.ids == rest[..|b.ids|]
    && !b.poisoned
    && (forall id :: id in b.sent <==> id in b.ids[..b.done])
  }

  ghost function Done(s: State, relay: nat): nat {
    if relay in s.open then s.open[relay].done else 0
  }

  /** The first `out` rows have left the table; what is left is the rest of the insertion order. */
  ghost predicate Queue(s: State, relay: nat, out: nat) {
    var log := IdsOf(s.insertLog);
    && Ascending(log) && out <= |log|
    && Consists(s.table, log[out..])
    && (forall r :: r in s.open ==> r == relay && Sending(s.open[r], log[out..]))
    && out + Done(s, relay) <= |log|
    && s.sendLog == log[..out + Done(s, relay)]
  }

  lemma FetchTakesFirst(table: Table, rest: seq<nat>, ids: seq<nat>, i: nat)
    requires Ascending(rest) && forall id :: IsPending(table, id) <==> id in rest
    requires IsFetch(table, {}, BATCH_SIZE, ids) && i < |ids|
    ensures i < |rest| && ids[i] == rest[i]
  {
    if i > 0 { FetchTakesFirst(table, rest, ids, i - 1); }
    forall j | 0 <= j < i ensures j < |rest| && ids[j] == rest[j] { FetchTakesFirst(table, rest, ids, j); }
    assert ids[i] in ids && ids[i] in rest;
    var k :| 0 <= k < |rest| && rest[k] == ids[i];
    assert k >= i;
    assert rest[i] in rest;
    assert rest[i] in ids;
  }

  lemma FetchIsHead(table: Table, rest: seq<nat>, ids: seq<nat>)
    requires Ascending(rest) && Consists(table, rest) && IsFetch(table, {}, BATCH_SIZE, ids)
    ensures |ids| <= |rest| && ids == rest[..|ids|]
  {
    forall i | 0 <= i < |ids| ensures i < |rest| && ids[i] == rest[i] { FetchTakesFirst(table, rest, ids, i); }
    if ids != [] { FetchTakesFirst(table, rest, ids, |ids| - 1); }
  }

  lemma FetchKeepsQueue(s: State, ids: seq<nat>, relay: nat, out: nat)
    requires Enabled(s, Fetch(relay, ids)) && Queue(s, relay, out)
    ensures Queue(Next(s, Fetch(relay, ids)), relay, out)
  {
    var rest := IdsOf(s.insertLog)[out..];
    assert Locked(s) == {};
    FetchIsHead(s.table, rest, ids);
    var t := Next(s, Fetch(relay, ids));
    assert t.open[relay] == Batch(ids, 0, false, {}) && Sending(t.open[relay], rest);
    assert Done(s, relay) == 0 == Done(t, relay);
  }

  lemma InsertConsists(s: State, entries: seq<Entry>, rest: seq<nat>)
    requires Rows(s) && Enabled(s, Commit(entries)) && Consists(s.table, rest)
    ensures Consists(Insert(s.table, entries), rest + IdsOf(entries))
  {
    InsertedRows(s, entries);
    var more, table := IdsOf(entries), Insert(s.table, entries);
    forall id | id in rest + more ensures id in table {
      if id in more { var i :| 0 <= i < |more| && more[i] == id; assert entries[i] in entries; }
    }
    forall id | id in table ensures id in rest + more && IsPending(table, id) {
      if id !in s.table {
        var e :| e in entries && e.id == id;
        var i :| 0 <= i < |entries| && entries[i] == e;
        assert more[i] == id && table[e.id] == FreshRow(e.message);
      }
    }
  }

  lemma Longer(log: seq<nat>, more: seq<nat>, n: nat)
    requires n <= |log|
    ensures (log + more)[..n] == log[..n] && (log + more)[n..] == log[n..] + more
  {
  }

  lemma InsertKeepsQueue(s: State, entries: seq<Entry>, relay: nat, out: nat)
    requires Rows(s) && Enabled(s, Commit(entries)) && Queue(s, relay, out)
    requires Ascending(IdsOf(s.insertLog + entries))
    ensures Queue(Next(s, Commit(entries)), relay, out)
  {
    var log, more := IdsOf(s.insertLog), IdsOf(entries);
    assert IdsOf(s.insertLog + entries) == log + more;
    InsertConsists(s, entries, log[out..]);
    Longer(log, more, out);
    Longer(log, more, out + Done(s, relay));
    forall r | r in s.open ensures Sending(s.open[r], log[out..] + more) {
      assert Sending(s.open[r], log[out..]);
      Longer(log[out..], more, |s.open[r].ids|);
    }
  }

  lemma ProcessKeepsQueue(s: State, relay: nat, out: nat)
    requires Enabled(s, Process(relay, Attempt(Confirmed, true))) && Queue(s, relay, out)
    ensures Queue(Next(s, Process(relay, Attempt(Confirmed, true))), relay, out)
  {
    var log, b := IdsOf(s.insertLog), s.open[relay];
    assert b.ids[..b.done + 1] == b.ids[..b.done] + [b.ids[b.done]];
    assert b.ids[b.done] == log[out..][b.done] == log[out + b.done];
    assert log[..out + b.done + 1] == log[..out + b.done] + [log[out + b.done]];
  }

  lemma SettleConsists(table: Table, b: Batch, rest: seq<nat>)
    requires Ascending(rest) && Consists(table, rest) && Sending(b, rest) && b.done == |b.ids|
    ensures Consists(Settle(table, b), rest[|b.ids|..])
  {
    assert b.ids[..b.done] == b.ids;
    assert rest == b.ids + rest[|b.ids|..];
    forall i, j | 0 <= i < |b.ids| <= j < |rest| ensures b.ids[i] < rest[j] { assert b.ids[i] == rest[i]; }
  }

  lemma CloseKeepsQueue(s: State, relay: nat, out: nat)
    requires Enabled(s, Close(relay, true)) && Queue(s, relay, out)
    ensures Queue(Next(s, Close(relay, true)), relay, out + |s.open[relay].ids|)
  {
    var log, b := IdsOf(s.insertLog), s.open[relay];
    SettleConsists(s.table, b, log[out..]);
    assert log[out..][|b.ids|..] == log[out + |b.ids|..];
  }

  lemma InsertLogGrows(s: State, steps: seq<Step>, t: State)
    requires Run(s, steps, t)
    ensures s.insertLog <= t.insertLog
    decreases |steps|
  {
    if steps != [] { InsertLogGrows(Next(s, steps[0]), steps[1..], t); }
  }

  lemma StepKeepsQueue(s: State, step: Step, relay: nat, out: nat) returns (out': nat)
    requires Rows(s) && Enabled(s, step) && Smooth(step, relay) && Queue(s, relay, out)
    requires Ascending(IdsOf(Next(s, step).insertLog))
    ensures Queue(Next(s, step), relay, out')
  {
    out' := out;
    match step {
      case Commit(entries) => InsertKeepsQueue(s, entries, relay, out);
      case Fetch(_, ids) => FetchKeepsQueue(s, ids, relay, out);
      case Process(_, _) => ProcessKeepsQueue(s, relay, out);
      case Close(_, _) => CloseKeepsQueue(s, relay, out); out' := out + |s.open[relay].ids|;
    }
  }

  lemma {:induction false} RunKeepsQueue(s: State, steps: seq<Step>, t: State, relay: nat, out: nat) returns (out': nat)
    requires Inv(s) && Run(s, steps, t) && Queue(s, relay, out)
    requires forall step :: step in steps ==> Smooth(step, relay)
    requires Ascending(IdsOf(t.insertLog))
    ensures Queue(t, relay, out')
    decreases |steps|
  {
    hide Next, Enabled, Queue, Smooth;
    out' := out;
    if steps != [] {
      var u := Next(s, steps[0]);
      assert steps[0] in steps && forall step :: step in steps[1..] ==> step in steps;
      StepKeeps(s, steps[0]);
      InsertLogGrows(u, steps[1..], t);
      assert IdsOf(u.insertLog) <= IdsOf(t.insertLog);
      out' := StepKeepsQueue(s, steps[0], relay, out);
      out' := RunKeepsQueue(u, steps[1..], t, relay, out');
    }
  }

  /** The relay refines a queue: when ids are handed out in commit order and nothing fails, what was published is
      at every moment a prefix of what was inserted; an empty table means that everything was published. */
  lemma PublishesInInsertionOrder(steps: seq<Step>, s: State, relay: nat)
    requires Run(INITIAL, steps, s)
    requires forall step :: step in steps ==> Smooth(step, relay)
    requires Ascending(IdsOf(s.insertLog))
    ensures s.sendLog <= IdsOf(s.insertLog)
    ensures s.table == map[] && s.open == map[] ==> s.sendLog == IdsOf(s.insertLog)
  {
    var out := RunKeepsQueue(INITIAL, steps, s, relay, 0);
    var log := IdsOf(s.insertLog);
    if out < |log| { assert log[out] in log[out..]; }
  }
}
