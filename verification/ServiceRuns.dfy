/** The subscription service's methods against the protocol: what they do, with the steps of others between their
    statements, is a run of the machine. */
module ServiceRuns {
  import opened Contracts
  import opened Storage
  import opened SubscriptionTables
  import opened System
  import opened SubscriptionService

  ghost function Stored(s: State): Db {
    Db(s.tables, s.outbox.table)
  }

  /** What the statements outside the transactions store, each a step of its own. */
  lemma StatementsAreSteps(s: State, call: Call)
    requires CallEnabled(s, call) && !call.SubscribeCommit? && !call.ConfirmCommit? && !call.RemoveCommit?
    ensures Stored(CallNext(s, call)) == match call
      case RegisterRepository(r) => Registered(Stored(s), s.requests[r].name, s.requests[r].tag)
      case RegisterUser(email) => WithUser(Stored(s), email)
      case UpdateTag(stamp) => Stored(s).(tables := SubscriptionTables.UpdateTag(s.tables, stamp.name, stamp.tag))
      case _ => Stored(s)
  {
  }

  // ----- the transactions -----

  /** A step, steps of others, a step. */
  function Around(first: Step, others: seq<Step>, last: Step): seq<Step> {
    [first] + others + [last]
  }

  lemma AroundRuns(s: State, first: Step, others: seq<Step>, v: State, last: Step)
    requires Enabled(s, first) && Run(Next(s, first), others, v) && Enabled(v, last)
    ensures Run(s, Around(first, others, last), Next(v, last))
  {
    First(s, first, others, v);
    RunThen(s, [first] + others, v, last);
  }

  /** A commit brings the transaction's message into the outbox. */
  lemma CommitStores(v: State, rowId: nat, message: Message)
    requires CanCommit(v, rowId)
    ensures Committed(v, rowId, message).table == Inserted(Stored(v), rowId, message)
  {
    CommittedIsAStep(v, rowId, message);
  }

  /** Subscribe's transaction: the upsert settles the id, others go on, and the commit stores row, saga and command. */
  lemma SubscribeIsARun(s: State, r: nat, key: Key, token: Token, ids: Ids, others: seq<Step>, v: State)
      returns (u: State)
    requires CallEnabled(s, System.Call.Subscribe(r, key, token, ids.subscription))
    requires Run(CallNext(s, System.Call.Subscribe(r, key, token, ids.subscription)), others, v)
    requires r in v.requests && v.requests[r] == Subscribing(key, token, SavedId(s.tables, key, ids.subscription))
    requires ids.saga !in v.commands && CanCommit(v, ids.row)
    ensures Run(s, Around(Api(System.Call.Subscribe(r, key, token, ids.subscription)), others,
                          Api(SubscribeCommit(r, ids.saga, ids.row))), u)
    ensures Stored(u) == StoredPending(Stored(v), key, SavedId(s.tables, key, ids.subscription), token, ids)
  {
    u := SubscribeCommits(v, r, key, token, SavedId(s.tables, key, ids.subscription), ids);
    AroundRuns(s, Api(System.Call.Subscribe(r, key, token, ids.subscription)), others, v,
               Api(SubscribeCommit(r, ids.saga, ids.row)));
  }

  lemma SubscribeCommits(v: State, r: nat, key: Key, token: Token, id: nat, ids: Ids) returns (u: State)
    requires r in v.requests && v.requests[r] == Subscribing(key, token, id)
    requires ids.saga !in v.commands && CanCommit(v, ids.row)
    ensures Enabled(v, Api(SubscribeCommit(r, ids.saga, ids.row)))
    ensures u == Next(v, Api(SubscribeCommit(r, ids.saga, ids.row)))
    ensures Stored(u) == StoredPending(Stored(v), key, id, token, ids)
  {
    u := CallNext(v, SubscribeCommit(r, ids.saga, ids.row));
    CommitStores(v, ids.row, Confirmation(CommandFor(ids.saga, id, key, token)));
  }

  /** Confirm's transaction, for the row `r` read before. */
  lemma ConfirmIsARun(s: State, r: nat, key: Key, token: Token, ids: Ids, others: seq<Step>, v: State)
      returns (u: State)
    requires CallEnabled(s, ConfirmSave(r, ids.subscription)) && s.requests[r] == Confirming(key, token)
    requires Run(CallNext(s, ConfirmSave(r, ids.subscription)), others, v)
    requires r in v.requests && v.requests[r] == Storing(key, token, SavedId(s.tables, key, ids.subscription))
    requires CanCommit(v, ids.row)
    ensures Run(s, Around(Api(ConfirmSave(r, ids.subscription)), others, Api(ConfirmCommit(r, ids.row))), u)
    ensures Stored(u) == StoredConfirmed(Stored(v), key, SavedId(s.tables, key, ids.subscription), token, ids)
  {
    u := ConfirmCommits(v, r, key, token, SavedId(s.tables, key, ids.subscription), ids);
    AroundRuns(s, Api(ConfirmSave(r, ids.subscription)), others, v, Api(ConfirmCommit(r, ids.row)));
  }

  lemma ConfirmCommits(v: State, r: nat, key: Key, token: Token, id: nat, ids: Ids) returns (u: State)
    requires r in v.requests && v.requests[r] == Storing(key, token, id) && CanCommit(v, ids.row)
    ensures Enabled(v, Api(ConfirmCommit(r, ids.row))) && u == Next(v, Api(ConfirmCommit(r, ids.row)))
    ensures Stored(u) == StoredConfirmed(Stored(v), key, id, token, ids)
  {
    u := CallNext(v, ConfirmCommit(r, ids.row));
    CommitStores(v, ids.row, Activated(key, token));
  }

  /** The transaction of both unsubscriptions: the DELETE settles whether there is a row, whatever others do until the
      commit. */
  lemma LeaveIsARun(s: State, r: nat, key: Key, ids: Ids, others: seq<Step>, v: State) returns (u: State)
    requires CallEnabled(s, Remove(r)) && s.requests[r] == Leaving(key) && Run(CallNext(s, Remove(r)), others, v)
    requires r in v.requests && v.requests[r] == Removing(key, key in s.tables.subscriptions) && CanCommit(v, ids.row)
    ensures Run(s, Around(Api(Remove(r)), others, Api(RemoveCommit(r, ids.row))), u)
    ensures Stored(u) == StoredRemoval(Stored(v), key, key in s.tables.subscriptions, ids)
  {
    u := RemovalCommits(v, r, key, key in s.tables.subscriptions, ids);
    AroundRuns(s, Api(Remove(r)), others, v, Api(RemoveCommit(r, ids.row)));
  }

  lemma RemovalCommits(v: State, r: nat, key: Key, found: bool, ids: Ids) returns (u: State)
    requires r in v.requests && v.requests[r] == Removing(key, found) && CanCommit(v, ids.row)
    ensures Enabled(v, Api(RemoveCommit(r, ids.row))) && u == Next(v, Api(RemoveCommit(r, ids.row)))
    ensures Stored(u) == StoredRemoval(Stored(v), key, found, ids)
  {
    u := CallNext(v, RemoveCommit(r, ids.row));
    CommitStores(v, ids.row, Unsubscribed(key));
  }

  // ----- replies -----

  /** Without interference a reply does to the tables what the pure handler says, or nothing. */
  lemma UndisturbedReply(db: Db, reply: Reply, luck: ReplyLuck)
    ensures ReplyHandled(db, Same<Db>(), reply, luck) ==
      if ReplyFails(db.tables, reply, luck) then db else db.(tables := HandleReply(db.tables, reply))
  {
    if !HasRow(db.tables, reply.subscriptionId) { NoRowToDelete(db.tables, reply.subscriptionId); }
  }

  function Take(d: nat, reply: Reply): Step {
    Orchestrate(TakeReply(d, reply))
  }

  function End(d: nat, t: Tables, reply: Reply, luck: ReplyLuck): Step {
    Orchestrate(EndReply(d, !ReplyFails(t, reply, luck)))
  }

  function FirstMove(d: nat, reply: Reply): ReplyMove {
    if reply.success then ReadSaga(d) else DeleteRow(d)
  }

  function SecondMove(d: nat, reply: Reply): ReplyMove {
    if reply.success then WriteSaga(d) else Undo(d)
  }

  /** How a delivery ends: it has left its queue exactly if it was handled without an error. */
  ghost predicate Ended(v: State, d: nat, t: Tables, reply: Reply, luck: ReplyLuck, u: State) {
    && u.replies == v.replies - {d}
    && u.queue == if ReplyFails(t, reply, luck) then v.queue else v.queue - multiset{Result(reply)}
  }

  lemma EndRuns(s: State, steps: seq<Step>, v: State, d: nat, t: Tables, reply: Reply, luck: ReplyLuck)
      returns (u: State)
    requires Run(s, steps, v) && d in v.replies && v.replies[d].reply == reply
    requires ReplyFails(t, reply, luck) || v.replies[d].phase.Handled?
    ensures Run(s, steps + [End(d, t, reply, luck)], u) && Ended(v, d, t, reply, luck, u) && Stored(u) == Stored(v)
  {
    u := Next(v, End(d, t, reply, luck));
    RunThen(s, steps, v, End(d, t, reply, luck));
  }

  lemma TakeRuns(s: State, d: nat, reply: Reply) returns (v: State)
    requires Enabled(s, Take(d, reply))
    ensures Run(s, [Take(d, reply)], v) && v == s.(replies := s.replies[d := ReplyTask(reply, Received)])
  {
    v := Next(s, Take(d, reply));
    assert Run(v, [], v);
    First(s, Take(d, reply), [], v);
    assert [Take(d, reply)] + [] == [Take(d, reply)];
  }

  lemma FirstRuns(s: State, v: State, d: nat, reply: Reply)
    requires v == s.(replies := s.replies[d := ReplyTask(reply, Received)]) && Run(s, [Take(d, reply)], v)
    requires ReplyEnabled(v, FirstMove(d, reply))
    ensures Run(s, [Take(d, reply)] + [Orchestrate(FirstMove(d, reply))], ReplyNext(v, FirstMove(d, reply)))
  {
    RunThen(s, [Take(d, reply)], v, Orchestrate(FirstMove(d, reply)));
  }

  /** A reply that gets past its first statement, `others` being the steps of everybody else until the second: a run
      that leaves the database as the method does, and removes the delivery exactly if it is acknowledged. */
  lemma ReplyIsARun(s: State, d: nat, reply: Reply, luck: ReplyLuck, others: seq<Step>, v: State)
      returns (steps: seq<Step>, u: State)
    requires Enabled(s, Take(d, reply)) && GetsPastFirst(s.tables, reply, luck)
    requires ReplyEnabled(Next(s, Take(d, reply)), FirstMove(d, reply))
    requires Run(ReplyNext(Next(s, Take(d, reply)), FirstMove(d, reply)), others, v)
    requires d in v.replies && v.replies[d] == ReplyNext(Next(s, Take(d, reply)), FirstMove(d, reply)).replies[d]
    ensures Run(s, steps, u) && Ended(v, d, s.tables, reply, luck, u)
    ensures Stored(u) == ReplyHandled(Stored(s), _ => Stored(v), reply, luck)
  {
    steps := BeforeSecond(s, d, reply, others, v);
    HandledAmid(Stored(s), Stored(v), reply, luck);
    steps, u := FromSecond(s, steps, v, d, reply, luck);
  }

  /** What a reply that gets past its first statement does to the database it finds at its second. */
  function AtSecond(db: Db, between: Db, reply: Reply, luck: ReplyLuck): Db {
    if ReplyFails(db.tables, reply, luck) then between
    else if reply.success then between.(tables := Activate(between.tables, reply.sagaId))
    else between.(tables := CompensateFound(between.tables, reply, HasRow(db.tables, reply.subscriptionId)))
  }

  lemma HandledAmid(db: Db, between: Db, reply: Reply, luck: ReplyLuck)
    requires GetsPastFirst(db.tables, reply, luck)
    ensures ReplyHandled(db, _ => between, reply, luck) == AtSecond(db, between, reply, luck)
  {
  }

  lemma FromSecond(s: State, before: seq<Step>, v: State, d: nat, reply: Reply, luck: ReplyLuck)
      returns (steps: seq<Step>, u: State)
    requires Run(s, before, v) && d in v.replies
    requires v.replies[d] == ReplyTask(reply,
      if reply.success then Activating else System.ReplyPhase.Deleting(HasRow(s.tables, reply.subscriptionId)))
    ensures Run(s, steps, u) && Ended(v, d, s.tables, reply, luck, u)
    ensures Stored(u) == AtSecond(Stored(s), Stored(v), reply, luck)
  {
    if ReplyFails(s.tables, reply, luck) {
      u := EndRuns(s, before, v, d, s.tables, reply, luck);
      steps := before + [End(d, s.tables, reply, luck)];
    } else {
      var w := SecondRuns(s, before, v, d, reply, HasRow(s.tables, reply.subscriptionId));
      steps, u := AfterSecond(s, before + [Orchestrate(SecondMove(d, reply))], v, w, d, s.tables, reply, luck);
    }
  }

  lemma AfterSecond(s: State, before: seq<Step>, v: State, w: State, d: nat, t: Tables, reply: Reply, luck: ReplyLuck)
      returns (steps: seq<Step>, u: State)
    requires Run(s, before, w) && d in v.replies
    requires w.queue == v.queue && w.replies == v.replies[d := ReplyTask(reply, Handled)]
    ensures Run(s, steps, u) && Ended(v, d, t, reply, luck, u) && Stored(u) == Stored(w)
  {
    u := EndRuns(s, before, w, d, t, reply, luck);
    assert w.replies - {d} == v.replies - {d};
    steps := before + [End(d, t, reply, luck)];
  }

  lemma BeforeSecond(s: State, d: nat, reply: Reply, others: seq<Step>, v: State) returns (steps: seq<Step>)
    requires Enabled(s, Take(d, reply)) && ReplyEnabled(Next(s, Take(d, reply)), FirstMove(d, reply))
    requires Run(ReplyNext(Next(s, Take(d, reply)), FirstMove(d, reply)), others, v)
    ensures Run(s, steps, v)
  {
    var t := TakeRuns(s, d, reply);
    FirstRuns(s, t, d, reply);
    steps := [Take(d, reply)] + [Orchestrate(FirstMove(d, reply))];
    RunConcat(s, steps, ReplyNext(t, FirstMove(d, reply)), others, v);
    steps := steps + others;
  }

  lemma SecondRuns(s: State, steps: seq<Step>, v: State, d: nat, reply: Reply, found: bool) returns (w: State)
    requires Run(s, steps, v) && d in v.replies
    requires v.replies[d] == ReplyTask(reply, if reply.success then Activating else System.ReplyPhase.Deleting(found))
    ensures Run(s, steps + [Orchestrate(SecondMove(d, reply))], w)
    ensures w == v.(
      replies := v.replies[d := ReplyTask(reply, Handled)],
      tables := if reply.success then Activate(v.tables, reply.sagaId) else CompensateFound(v.tables, reply, found))
  {
    w := ReplyNext(v, SecondMove(d, reply));
    RunThen(s, steps, v, Orchestrate(SecondMove(d, reply)));
  }

  /** A reply that does not get past its first statement leaves the database alone. */
  lemma ReplyStopsIsARun(s: State, d: nat, reply: Reply, luck: ReplyLuck) returns (steps: seq<Step>, u: State)
    requires Enabled(s, Take(d, reply)) && !GetsPastFirst(s.tables, reply, luck)
    ensures Run(s, steps, u)
    ensures u.queue == if ReplyFails(s.tables, reply, luck) then s.queue else s.queue - multiset{Result(reply)}
    ensures Stored(u) == Stored(s) == ReplyHandled(Stored(s), Same<Db>(), reply, luck) && d !in u.replies
  {
    var v := TakeRuns(s, d, reply);
    steps := [Take(d, reply)];
    if !ReplyFails(s.tables, reply, luck) {
      FirstRuns(s, v, d, reply);
      steps, v := steps + [Orchestrate(FirstMove(d, reply))], ReplyNext(v, FirstMove(d, reply));
    }
    u := EndRuns(s, steps, v, d, s.tables, reply, luck);
    steps := steps + [End(d, s.tables, reply, luck)];
  }
}
