/** The whole protocol: the subscription service, the broker, the notification service and the tracker.

    A step is one statement that decides about a subscription row, the commit of its transaction, one statement outside
    a transaction, one step of a relay, one mail, one publish or one acknowledgement. Steps of different requests,
    deliveries, relays and passes interleave in any order; a delivery stays in its queue until it is settled, so it may
    be handled again at any time.

    Transactions are PostgreSQL's READ COMMITTED: a statement sees what is committed when it executes. A transaction
    that has inserted, updated or deleted a subscription row holds that row until it ends, and a statement that needs a
    held row waits. A DELETE that finds no row holds nothing, and it does not wait for an insert that is still open. */
module System {
  import opened Contracts
  import Outbox
  import opened SubscriptionTables
  import Tracker

  /** A request of the subscription service between two statements. In the last three the transaction is open: the
      upsert returned `id`, or the DELETE did or did not find a row. */
  datatype Request =
    | Registering(name: Name, tag: Tag)                    // the tracker answered; the local row is next
    | Confirming(key: Key, token: Token)                   // Confirm read the row outside its transaction
    | Leaving(key: Key)                                    // an unsubscription read the row or the user
    | Subscribing(key: Key, token: Token, id: nat)
    | Storing(key: Key, token: Token, id: nat)
    | Removing(key: Key, found: bool)

  datatype MailPhase = Taken | Sent | Refused | Answered(success: bool)

  datatype MailTask = MailTask(command: Command, phase: MailPhase)

  datatype MailResult = Accepted | AuthFailed | Unavailable

  datatype ReplyPhase = Received | Activating | Deleting(found: bool) | Handled

  datatype ReplyTask = ReplyTask(reply: Reply, phase: ReplyPhase)

  /** The last seven fields are history: the ids drawn for subscription rows and those a committed row ever had, the
      command written for every saga, the commands whose mail SMTP accepted or refused for good, the tokens Confirm was
      called with, and the keys whose removal was committed by a transaction that had found no row, since they were
      last confirmed. */
  datatype State = State(
    tables: Tables, outbox: Outbox.State, requests: map<nat, Request>,
    queue: multiset<Message>, mail: map<nat, MailTask>, replies: map<nat, ReplyTask>,
    tracker: Tracker.State,
    drawnIds: set<nat>, usedIds: set<nat>, commands: map<nat, Command>,
    accepted: set<Command>, refused: set<Command>, granted: set<Tracker.Grant>, emptied: set<Key>)

  const INITIAL := State(
    Tables({}, map[], map[], map[]), Outbox.INITIAL, map[], multiset{}, map[], map[], Tracker.INITIAL,
    {}, {}, map[], {}, {}, {}, {})

  /** The subscription service's API. `rowId`, `sagaId` and `freshId` are the ids the database hands out. */
  datatype Call =
    | Respond(task: nat, request: nat)                    // the tracker's answer arrives
    | RegisterRepository(request: nat)
    | RegisterUser(email: Email)
    | Subscribe(request: nat, key: Key, token: Token, freshId: nat)     // begin, upsert
    | SubscribeCommit(request: nat, sagaId: nat, rowId: nat)            // saga, command, commit
    | Confirm(request: nat, key: Key)                     // called with the token of this row
    | ConfirmSave(request: nat, freshId: nat)             // begin, upsert
    | ConfirmCommit(request: nat, rowId: nat)             // event, commit
    | Leave(request: nat, key: Key)                       // UnsubscribeByToken reads the row
    | Unsubscribe(request: nat, key: Key)                 // Unsubscribe reads the user
    | Remove(request: nat)                                // begin, DELETE
    | RemoveCommit(request: nat, rowId: nat)              // event, commit
    | UpdateTag(stamp: Tracker.Stamp)
    | Abandon(request: nat)                               // an error or a crash

  /** The consumer of replies. */
  datatype ReplyMove =
    | TakeReply(delivery: nat, reply: Reply)
    | ReadSaga(delivery: nat)
    | WriteSaga(delivery: nat)
    | DeleteRow(delivery: nat)                            // begin, DELETE by id
    | Undo(delivery: nat)                                 // saga status, commit
    | EndReply(delivery: nat, settled: bool)

  /** The notification service. */
  datatype MailMove =
    | TakeCommand(delivery: nat, command: Command)
    | SendMail(delivery: nat, result: MailResult)
    | Answer(delivery: nat, outcome: Outcome)
    | EndMail(delivery: nat, settled: bool)
    | TakeNote(note: Message)                             // a release mail is sent and acknowledged

  datatype Step =
    | Api(call: Call)
    | Orchestrate(reply: ReplyMove)
    | Notify(mail: MailMove)
    | RelayStep(relay: Outbox.Step)
    | TrackerStep(work: Tracker.Step, settled: bool)

  function CommandOf(r: Reply): Command {
    Command(r.sagaId, r.subscriptionId, r.email, r.repo, r.token)
  }

  function Event(rowId: nat, message: Message): Outbox.Step {
    Outbox.Commit([Outbox.Entry(rowId, message)])
  }

  /** The message an open transaction of a request writes. */
  function Writes(r: Request, sagaId: nat): Message
    requires r.Subscribing? || r.Storing? || r.Removing?
  {
    match r
    case Subscribing(key, token, id) => Confirmation(CommandFor(sagaId, id, key, token))
    case Storing(key, token, _) => Activated(key, token)
    case Removing(key, _) => Unsubscribed(key)
  }

  ghost predicate CanCommit(s: State, rowId: nat) {
    !Outbox.Issued(s.outbox, rowId)
  }

  /** The outbox after the transaction's row is committed. */
  function Committed(s: State, rowId: nat, message: Message): Outbox.State {
    s.outbox.(table := s.outbox.table[rowId := Outbox.FreshRow(message)],
              insertLog := s.outbox.insertLog + [Outbox.Entry(rowId, message)])
  }

  lemma CommittedIsAStep(s: State, rowId: nat, message: Message)
    requires CanCommit(s, rowId)
    ensures Outbox.Enabled(s.outbox, Event(rowId, message))
    ensures Committed(s, rowId, message) == Outbox.Next(s.outbox, Event(rowId, message))
  {
    assert Outbox.Insert(s.outbox.table, [Outbox.Entry(rowId, message)])
        == s.outbox.table[rowId := Outbox.FreshRow(message)];
  }

  /** The open transaction has changed the row of this key. */
  predicate Changed(r: Request, key: Key) {
    ((r.Subscribing? || r.Storing?) && r.key == key) || (r.Removing? && r.found && r.key == key)
  }

  ghost predicate HeldByRequest(s: State, key: Key) {
    exists r :: r in s.requests && Changed(s.requests[r], key)
  }

  predicate DeletesId(t: ReplyTask, id: nat) {
    t.phase == Deleting(true) && t.reply.subscriptionId == id
  }

  ghost predicate HeldByReply(s: State, key: Key) {
    && key in s.tables.subscriptions
    && exists d :: d in s.replies && DeletesId(s.replies[d], s.tables.subscriptions[key].id)
  }

  ghost predicate Held(s: State, key: Key) {
    HeldByRequest(s, key) || HeldByReply(s, key)
  }

  ghost predicate CallEnabled(s: State, call: Call) {
    match call
    case Respond(k, r) => k in s.tracker.tasks && s.tracker.tasks[k].Responding? && r !in s.requests
    case RegisterRepository(r) => r in s.requests && s.requests[r].Registering?
    case RegisterUser(_) => true
    case Subscribe(r, key, _, freshId) =>
      && r !in s.requests && key.email in s.tables.users && key.repo in s.tables.repositories
      && freshId !in s.drawnIds && !Held(s, key)
    case SubscribeCommit(r, sagaId, rowId) =>
      r in s.requests && s.requests[r].Subscribing? && sagaId !in s.commands && CanCommit(s, rowId)
    case Confirm(r, key) => r !in s.requests && key in s.tables.subscriptions && s.tables.subscriptions[key].token != ""
    case ConfirmSave(r, freshId) =>
      r in s.requests && s.requests[r].Confirming? && freshId !in s.drawnIds && !Held(s, s.requests[r].key)
    case ConfirmCommit(r, rowId) => r in s.requests && s.requests[r].Storing? && CanCommit(s, rowId)
    case Leave(r, key) => r !in s.requests && key in s.tables.subscriptions && s.tables.subscriptions[key].token != ""
    case Unsubscribe(r, key) => r !in s.requests && key.email in s.tables.users
    case Remove(r) =>
      && r in s.requests && s.requests[r].Leaving?
      && (s.requests[r].key in s.tables.subscriptions ==> !Held(s, s.requests[r].key))
    case RemoveCommit(r, rowId) => r in s.requests && s.requests[r].Removing? && CanCommit(s, rowId)
    case UpdateTag(stamp) => stamp in s.tracker.announced
    case Abandon(r) => r in s.requests
  }

  ghost predicate ReplyEnabled(s: State, move: ReplyMove) {
    match move
    case TakeReply(d, reply) => d !in s.replies && Result(reply) in s.queue
    case ReadSaga(d) =>
      && d in s.replies && s.replies[d].phase.Received? && s.replies[d].reply.success
      && s.replies[d].reply.sagaId in s.tables.sagas
    case WriteSaga(d) => d in s.replies && s.replies[d].phase.Activating?
    case DeleteRow(d) =>
      && d in s.replies && s.replies[d].phase.Received? && !s.replies[d].reply.success
      && (forall key :: key in s.tables.subscriptions && Held(s, key) ==>
            s.tables.subscriptions[key].id != s.replies[d].reply.subscriptionId)
    case Undo(d) => d in s.replies && s.replies[d].phase.Deleting?
    case EndReply(d, settled) => d in s.replies && (settled ==> s.replies[d].phase.Handled?)
  }

  ghost predicate MailEnabled(s: State, move: MailMove) {
    match move
    case TakeCommand(d, c) => d !in s.mail && Confirmation(c) in s.queue
    case SendMail(d, _) => d in s.mail && s.mail[d].phase.Taken?
    case Answer(d, _) => d in s.mail && (s.mail[d].phase.Sent? || s.mail[d].phase.Refused?)
    case EndMail(d, settled) => d in s.mail && (settled ==> s.mail[d].phase.Answered?)
    case TakeNote(note) => note.Notification? && note in s.queue
  }

  ghost predicate TrackerEnabled(s: State, work: Tracker.Step, settled: bool) {
    && Tracker.Enabled(s.tracker, work)
    && (work.Receive? ==> work.event in s.queue)
    && (settled ==> work.Stop? && s.tracker.tasks[work.task].Acking?)
  }

  ghost predicate Enabled(s: State, step: Step) {
    match step
    case Api(call) => CallEnabled(s, call)
    case Orchestrate(move) => ReplyEnabled(s, move)
    case Notify(move) => MailEnabled(s, move)
    case RelayStep(o) => !o.Commit? && Outbox.Enabled(s.outbox, o)
    case TrackerStep(work, settled) => TrackerEnabled(s, work, settled)
  }

  ghost function CallNext(s: State, call: Call): State
    requires CallEnabled(s, call)
  {
    match call
    case Respond(k, r) =>
      var c := s.tracker.tasks[k];
      s.(requests := s.requests[r := Registering(c.name, c.tag)], tracker := Tracker.Next(s.tracker, Tracker.Stop(k)))
    case RegisterRepository(r) =>
      s.(tables := SubscriptionTables.RegisterRepository(s.tables, s.requests[r].name, s.requests[r].tag),
         requests := s.requests - {r})
    case RegisterUser(email) =>
      s.(tables := s.tables.(users := s.tables.users + {email}))
    case Subscribe(r, key, token, freshId) =>
      s.(requests := s.requests[r := Subscribing(key, token, SavedId(s.tables, key, freshId))],
         drawnIds := s.drawnIds + {freshId})
    case SubscribeCommit(r, sagaId, rowId) =>
      var c := s.requests[r];
      s.(tables := CreateSaga(Put(s.tables, c.key, c.id, c.token, false), sagaId, c.id),
         outbox := Committed(s, rowId, Writes(c, sagaId)), requests := s.requests - {r},
         usedIds := s.usedIds + {c.id}, commands := s.commands[sagaId := CommandFor(sagaId, c.id, c.key, c.token)])
    case Confirm(r, key) =>
      var token := s.tables.subscriptions[key].token;
      s.(requests := s.requests[r := Confirming(key, token)], granted := s.granted + {Tracker.Grant(key, token)})
    case ConfirmSave(r, freshId) =>
      var c := s.requests[r];
      s.(requests := s.requests[r := Storing(c.key, c.token, SavedId(s.tables, c.key, freshId))],
         drawnIds := s.drawnIds + {freshId})
    case ConfirmCommit(r, rowId) =>
      var c := s.requests[r];
      s.(tables := Put(s.tables, c.key, c.id, c.token, true),
         outbox := Committed(s, rowId, Writes(c, 0)), requests := s.requests - {r},
         usedIds := s.usedIds + {c.id}, emptied := s.emptied - {c.key})
    case Leave(r, key) => s.(requests := s.requests[r := Leaving(key)])
    case Unsubscribe(r, key) => s.(requests := s.requests[r := Leaving(key)])
    case Remove(r) =>
      var key := s.requests[r].key;
      s.(requests := s.requests[r := Removing(key, key in s.tables.subscriptions)])
    case RemoveCommit(r, rowId) =>
      var c := s.requests[r];
      s.(tables := Unput(s.tables, c.key, c.found),
         outbox := Committed(s, rowId, Writes(c, 0)), requests := s.requests - {r},
         emptied := if c.found then s.emptied else s.emptied + {c.key})
    case UpdateTag(stamp) =>
      s.(tables := SubscriptionTables.UpdateTag(s.tables, stamp.name, stamp.tag))
    case Abandon(r) =>
      s.(requests := s.requests - {r})
  }

  ghost function ReplyNext(s: State, move: ReplyMove): State
    requires ReplyEnabled(s, move)
  {
    match move
    case TakeReply(d, reply) =>
      s.(replies := s.replies[d := ReplyTask(reply, Received)])
    case ReadSaga(d) =>
      var r := s.replies[d].reply;
      var phase := if s.tables.sagas[r.sagaId].status.Completed? then Handled else Activating;
      s.(replies := s.replies[d := ReplyTask(r, phase)])
    case WriteSaga(d) =>
      var r := s.replies[d].reply;
      s.(tables := Activate(s.tables, r.sagaId), replies := s.replies[d := ReplyTask(r, Handled)])
    case DeleteRow(d) =>
      var r := s.replies[d].reply;
      s.(replies := s.replies[d := ReplyTask(r, Deleting(HasRow(s.tables, r.subscriptionId)))])
    case Undo(d) =>
      var r := s.replies[d].reply;
      s.(tables := CompensateFound(s.tables, r, s.replies[d].phase.found),
         replies := s.replies[d := ReplyTask(r, Handled)])
    case EndReply(d, settled) =>
      s.(replies := s.replies - {d},
         queue := if settled then s.queue - multiset{Result(s.replies[d].reply)} else s.queue)
  }

  ghost function MailNext(s: State, move: MailMove): State
    requires MailEnabled(s, move)
  {
    match move
    case TakeCommand(d, c) =>
      s.(mail := s.mail[d := MailTask(c, Taken)])
    case SendMail(d, Accepted) =>
      s.(mail := s.mail[d := MailTask(s.mail[d].command, Sent)], accepted := s.accepted + {s.mail[d].command})
    case SendMail(d, AuthFailed) =>
      s.(mail := s.mail[d := MailTask(s.mail[d].command, Refused)], refused := s.refused + {s.mail[d].command})
    case SendMail(d, Unavailable) =>
      s.(mail := s.mail - {d})
    case Answer(d, outcome) =>
      var c, success := s.mail[d].command, s.mail[d].phase.Sent?;
      s.(mail := if outcome.Confirmed? then s.mail[d := MailTask(c, Answered(success))] else s.mail - {d},
         queue := if Queued(outcome) then s.queue + multiset{Result(ReplyTo(c, success))} else s.queue)
    case EndMail(d, settled) =>
      s.(mail := s.mail - {d},
         queue := if settled then s.queue - multiset{Confirmation(s.mail[d].command)} else s.queue)
    case TakeNote(note) =>
      s.(queue := s.queue - multiset{note})
  }

  ghost function TrackerNext(s: State, work: Tracker.Step, settled: bool): State
    requires TrackerEnabled(s, work, settled)
  {
    s.(tracker := Tracker.Next(s.tracker, work),
       queue :=
         if settled then s.queue - multiset{s.tracker.tasks[work.task].event}
         else if work.Relay? then s.queue + Outbox.Published(s.tracker.outbox, work.step)
         else s.queue)
  }

  ghost function Next(s: State, step: Step): State
    requires Enabled(s, step)
  {
    match step
    case Api(call) => CallNext(s, call)
    case Orchestrate(move) => ReplyNext(s, move)
    case Notify(move) => MailNext(s, move)
    case RelayStep(o) => s.(outbox := Outbox.Next(s.outbox, o), queue := s.queue + Outbox.Published(s.outbox, o))
    case TrackerStep(work, settled) => TrackerNext(s, work, settled)
  }

  ghost predicate Run(s: State, steps: seq<Step>, u: State)
    decreases |steps|
  {
    if steps == [] then u == s
    else Enabled(s, steps[0]) && Run(Next(s, steps[0]), steps[1..], u)
  }

  ghost predicate Reachable(s: State) {
    exists steps :: Run(INITIAL, steps, s)
  }

  lemma First(s: State, step: Step, rest: seq<Step>, u: State)
    requires Enabled(s, step) && Run(Next(s, step), rest, u)
    ensures Run(s, [step] + rest, u)
  {
    assert ([step] + rest)[1..] == rest;
  }

  lemma {:induction false} RunThen(s: State, steps: seq<Step>, u: State, step: Step)
    requires Run(s, steps, u) && Enabled(u, step)
    ensures Run(s, steps + [step], Next(u, step))
    decreases |steps|
  {
    if steps == [] {
      assert ([] + [step])[1..] == [];
    } else {
      RunThen(Next(s, steps[0]), steps[1..], u, step);
      assert (steps + [step])[1..] == steps[1..] + [step];
    }
  }

  /** A run goes on exactly as the run that starts where its first part ends. */
  lemma {:induction false} RunParts(s: State, first: seq<Step>, t: State, rest: seq<Step>, all: seq<Step>, u: State)
    requires Run(s, first, t) && all == first + rest
    ensures Run(s, all, u) <==> Run(t, rest, u)
    decreases |first|
  {
    if first == [] {
      assert all == rest;
    } else {
      assert all[0] == first[0] && all[1..] == first[1..] + rest;
      RunParts(Next(s, first[0]), first[1..], t, rest, all[1..], u);
    }
  }

  lemma RunConcat(s: State, first: seq<Step>, t: State, rest: seq<Step>, u: State)
    requires Run(s, first, t) && Run(t, rest, u)
    ensures Run(s, first + rest, u)
  {
    RunParts(s, first, t, rest, first + rest, u);
  }

  lemma RunSplit(s: State, steps: seq<Step>, u: State, i: nat, t: State)
    requires Run(s, steps, u) && i <= |steps| && Run(s, steps[..i], t)
    ensures Run(t, steps[i..], u)
  {
    assert steps == steps[..i] + steps[i..];
    RunParts(s, steps[..i], t, steps[i..], steps, u);
  }

  /** The last step of a run. */
  lemma {:induction false} LastStep(s: State, steps: seq<Step>, u: State) returns (t: State)
    requires Run(s, steps, u) && steps != []
    ensures Run(s, steps[..|steps| - 1], t) && Enabled(t, steps[|steps| - 1]) && u == Next(t, steps[|steps| - 1])
    decreases |steps|
  {
    hide Enabled, Next;
    if |steps| == 1 {
      t := s;
      assert Run(Next(s, steps[0]), steps[1..], u);
    } else {
      t := LastStep(Next(s, steps[0]), steps[1..], u);
      assert steps[1..][..|steps| - 2] == steps[..|steps| - 1][1..];
    }
  }

  lemma ReachableNext(s: State, step: Step)
    requires Reachable(s) && Enabled(s, step)
    ensures Reachable(Next(s, step))
  {
    var steps :| Run(INITIAL, steps, s);
    RunThen(INITIAL, steps, s, step);
  }
}
