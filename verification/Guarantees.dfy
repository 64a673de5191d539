/** What the protocol promises in every reachable state, under every interleaving, abort, crash and redelivery. */
module Guarantees {
  import opened Contracts
  import Outbox
  import opened SubscriptionTables
  import Tracker
  import opened System
  import opened SystemInvariant

  // ----- the saga -----

  ghost predicate InOutbox(s: State, m: Message) {
    exists id :: id in s.outbox.table && s.outbox.table[id].message == m
  }

  /** A command that was written is still in the outbox, or it was published and is covered. */
  lemma CommandIsSomewhere(s: State, c: Command)
    requires Outbox.Inv(s.outbox) && Progressing(s) && Logged(s.outbox.insertLog, Confirmation(c))
    ensures InOutbox(s, Confirmation(c)) || Covered(s, c)
  {
    var e :| e in s.outbox.insertLog && e.message == Confirmation(c);
    Outbox.Kept(s.outbox, e);
  }

  /** No saga is orphaned: while a saga is STARTED its own command is in the outbox (PENDING or FAILED) or in the
      confirmations queue, or a reply to it is in the results queue. */
  lemma NoSagaIsOrphaned(s: State, id: nat)
    requires Reachable(s) && id in s.tables.sagas && s.tables.sagas[id].status.Started?
    ensures id in s.commands
    ensures var c := s.commands[id];
      InOutbox(s, Confirmation(c)) || Confirmation(c) in s.queue || exists b :: Result(ReplyTo(c, b)) in s.queue
  {
    InvHolds(s);
    assert SagaOk(s, id, s.tables.sagas[id]);
    CommandIsSomewhere(s, s.commands[id]);
  }

  /** References never dangle: commands in the outbox or the queue and replies in the results queue name an existing
      saga, of the subscription they carry. */
  lemma ReferencesNeverDangle(s: State)
    requires Reachable(s)
    ensures forall c: Command :: InOutbox(s, Confirmation(c)) || Confirmation(c) in s.queue ==>
      c.sagaId in s.tables.sagas && s.tables.sagas[c.sagaId].subscriptionId == c.subscriptionId
    ensures forall r: Reply :: Result(r) in s.queue ==>
      r.sagaId in s.tables.sagas && s.tables.sagas[r.sagaId].subscriptionId == r.subscriptionId
  {
    InvHolds(s);
    forall c: Command | InOutbox(s, Confirmation(c)) || Confirmation(c) in s.queue
      ensures c.sagaId in s.tables.sagas && s.tables.sagas[c.sagaId].subscriptionId == c.subscriptionId
    {
      if InOutbox(s, Confirmation(c)) {
        var id :| id in s.outbox.table && s.outbox.table[id].message == Confirmation(c);
        assert EntryOk(s, Outbox.Entry(id, Confirmation(c)));
      } else {
        assert MessageOk(s, Confirmation(c));
      }
      assert SagaOk(s, c.sagaId, s.tables.sagas[c.sagaId]);
    }
    forall r: Reply | Result(r) in s.queue
      ensures r.sagaId in s.tables.sagas && s.tables.sagas[r.sagaId].subscriptionId == r.subscriptionId
    {
      assert MessageOk(s, Result(r));
      assert SagaOk(s, r.sagaId, s.tables.sagas[r.sagaId]);
    }
  }

  /** Status and step agree; COMPLETED means SMTP accepted the mail of the saga's own command, COMPENSATED that a send
      of it failed for good and that the subscription row is gone. */
  lemma SagaStates(s: State, id: nat)
    requires Reachable(s) && id in s.tables.sagas
    ensures id in s.commands && s.commands[id].sagaId == id
    ensures var saga := s.tables.sagas[id];
      && saga.subscriptionId == s.commands[id].subscriptionId
      && (saga.status.Started? ==> saga.step.SendConfirmation?)
      && (saga.status.Completed? ==> saga.step.ActivateSubscription? && s.commands[id] in s.accepted)
      && (saga.status.Compensated? ==> s.commands[id] in s.refused && !HasRow(s.tables, saga.subscriptionId))
  {
    InvHolds(s);
    assert SagaOk(s, id, s.tables.sagas[id]);
  }

  ghost predicate Ended(s: State, id: nat) {
    id in s.tables.sagas && id in s.commands && !s.tables.sagas[id].status.Started?
  }

  ghost predicate Gone(s: State, subscriptionId: nat) {
    subscriptionId in s.usedIds && !HasRow(s.tables, subscriptionId)
  }

  lemma CallKeepsGone(s: State, call: Call, subscriptionId: nat)
    requires Inv(s) && Gone(s, subscriptionId) && CallEnabled(s, call)
    ensures Gone(CallNext(s, call), subscriptionId)
  {
    RowsAfterCall(s, call, subscriptionId);
    CallExtends(s, call);
  }

  lemma ReplyKeepsGone(s: State, move: ReplyMove, subscriptionId: nat)
    requires Gone(s, subscriptionId) && ReplyEnabled(s, move)
    ensures Gone(ReplyNext(s, move), subscriptionId)
  {
    NoNewRows(s, ReplyNext(s, move), subscriptionId);
  }

  lemma StepKeepsGone(s: State, step: Step, subscriptionId: nat)
    requires Inv(s) && Gone(s, subscriptionId) && Enabled(s, step)
    ensures Gone(Next(s, step), subscriptionId)
  {
    match step
    case Api(call) => CallKeepsGone(s, call, subscriptionId);
    case Orchestrate(move) => ReplyKeepsGone(s, move, subscriptionId);
    case Notify(move) => MailFrame(s, move);
    case TrackerStep(_, _) =>
    case RelayStep(_) =>
  }

  lemma CallKeepsEnded(s: State, call: Call, id: nat)
    requires Ended(s, id) && CallEnabled(s, call)
    ensures Ended(CallNext(s, call), id)
  {
    if IsCommit(call) { CommitFrame(s, call); } else { QuietFrame(s, call); }
  }

  lemma ReplyKeepsEnded(s: State, move: ReplyMove, id: nat)
    requires Ended(s, id) && ReplyEnabled(s, move)
    ensures Ended(ReplyNext(s, move), id)
  {
  }

  lemma StepKeepsEnded(s: State, step: Step, id: nat)
    requires Ended(s, id) && Enabled(s, step)
    ensures Ended(Next(s, step), id)
  {
    match step
    case Api(call) => CallKeepsEnded(s, call, id);
    case Orchestrate(move) => ReplyKeepsEnded(s, move, id);
    case Notify(move) => MailFrame(s, move);
    case TrackerStep(_, _) =>
    case RelayStep(_) =>
  }

  /** STARTED is never entered again, and a subscription id that has lost its row never has one again - whatever
      transactions were open when it lost it. */
  lemma {:induction false} ForGood(s: State, steps: seq<Step>, u: State, id: nat, subscriptionId: nat)
    requires Reachable(s) && Run(s, steps, u)
    ensures Ended(s, id) ==> Ended(u, id)
    ensures Gone(s, subscriptionId) ==> Gone(u, subscriptionId)
    decreases |steps|
  {
    if steps != [] {
      hide Enabled, Next, Ended, Gone;
      if Ended(s, id) { StepKeepsEnded(s, steps[0], id); }
      InvHolds(s);
      ReachableNext(s, steps[0]);
      if Gone(s, subscriptionId) { StepKeepsGone(s, steps[0], subscriptionId); }
      ForGood(Next(s, steps[0]), steps[1..], u, id, subscriptionId);
    }
  }

  lemma FailureRepliesOfThe(u: State, d: nat, id: nat, subscriptionId: nat)
    requires References(u) && Enabled(u, Orchestrate(Undo(d))) && u.replies[d].reply.sagaId == id
    requires id in u.commands && u.commands[id].subscriptionId == subscriptionId && !HasRow(u.tables, subscriptionId)
    ensures Next(u, Orchestrate(Undo(d))).tables.subscriptions == u.tables.subscriptions
  {
    assert DeliveryOk(u, u.replies[d]);
    NoRowToDelete(u.tables, subscriptionId);
  }

  lemma LateFailuresRemoveNothing(u: State, id: nat, subscriptionId: nat)
    requires References(u)
    requires id in u.commands && u.commands[id].subscriptionId == subscriptionId && !HasRow(u.tables, subscriptionId)
    ensures forall d :: Enabled(u, Orchestrate(Undo(d))) && u.replies[d].reply.sagaId == id ==>
      Next(u, Orchestrate(Undo(d))).tables.subscriptions == u.tables.subscriptions
  {
    forall d | Enabled(u, Orchestrate(Undo(d))) && u.replies[d].reply.sagaId == id
      ensures Next(u, Orchestrate(Undo(d))).tables.subscriptions == u.tables.subscriptions
    {
      FailureRepliesOfThe(u, d, id, subscriptionId);
    }
  }

  /** Once a saga is COMPENSATED no row has its subscription id ever again - even if the saga is COMPLETED later - and a
      late failure reply for it removes no row, whatever was inserted in between. */
  lemma CompensationIsFinal(s: State, steps: seq<Step>, u: State, id: nat)
    requires Reachable(s) && id in s.tables.sagas && s.tables.sagas[id].status.Compensated? && Run(s, steps, u)
    ensures !HasRow(u.tables, s.tables.sagas[id].subscriptionId)
    ensures forall d :: Enabled(u, Orchestrate(Undo(d))) && u.replies[d].reply.sagaId == id ==>
      Next(u, Orchestrate(Undo(d))).tables.subscriptions == u.tables.subscriptions
  {
    hide Run, Enabled, Next, HasRow;
    SagaStates(s, id);
    InvHolds(s);
    assert SagaOk(s, id, s.tables.sagas[id]);
    ForGood(s, steps, u, id, s.tables.sagas[id].subscriptionId);
    CommandsStay(s, steps, u, id);
    assert References(u) by { RunKeeps(s, steps, u); }
    LateFailuresRemoveNothing(u, id, s.tables.sagas[id].subscriptionId);
  }

  lemma StepKeepsCommand(s: State, step: Step, id: nat)
    requires Enabled(s, step) && id in s.commands
    ensures id in Next(s, step).commands && Next(s, step).commands[id] == s.commands[id]
  {
    match step
    case Api(call) => CallExtends(s, call);
    case Orchestrate(move) => ReplyFrame(s, move);
    case Notify(move) => MailFrame(s, move);
    case TrackerStep(_, _) =>
    case RelayStep(_) =>
  }

  lemma {:induction false} CommandsStay(s: State, steps: seq<Step>, u: State, id: nat)
    requires id in s.commands && Run(s, steps, u)
    ensures id in u.commands && u.commands[id] == s.commands[id]
    decreases |steps|
  {
    if steps != [] {
      hide Enabled, Next;
      StepKeepsCommand(s, steps[0], id);
      CommandsStay(Next(s, steps[0]), steps[1..], u, id);
    }
  }

  // ----- where history comes from -----

  /** Some earlier step of the run, taken in state `t`. */
  ghost predicate Earlier(s: State, steps: seq<Step>, i: nat, t: State) {
    i < |steps| && Run(s, steps[..i], t) && Enabled(t, steps[i])
  }

  lemma EarlierInRest(s: State, steps: seq<Step>, i: nat, t: State)
    requires steps != [] && Enabled(s, steps[0]) && Earlier(Next(s, steps[0]), steps[1..], i, t)
    ensures Earlier(s, steps, i + 1, t) && steps[i + 1] == steps[1..][i]
  {
    assert steps[..i + 1][1..] == steps[1..][..i];
  }

  lemma EarlierInPrefix(s: State, steps: seq<Step>, n: nat, i: nat, t: State)
    requires n <= |steps| && Earlier(s, steps[..n], i, t)
    ensures Earlier(s, steps, i, t) && i < n && steps[i] == steps[..n][i]
  {
    hide Run, Enabled;
    assert steps[..n][..i] == steps[..i];
  }

  ghost predicate ConfirmsWith(t: State, step: Step, g: Tracker.Grant) {
    && step.Api? && step.call.Confirm? && step.call.key == g.key
    && g.key in t.tables.subscriptions && t.tables.subscriptions[g.key].token == g.token
  }

  lemma CallHistory(s: State, call: Call)
    requires CallEnabled(s, call)
    ensures
      var u := CallNext(s, call);
      && u.accepted == s.accepted && u.refused == s.refused
      && (call.Confirm? ==>
            u.granted == s.granted + {Tracker.Grant(call.key, s.tables.subscriptions[call.key].token)})
      && (!call.Confirm? ==> u.granted == s.granted)
  {
  }

  lemma GrantedNow(s: State, step: Step, g: Tracker.Grant)
    requires Enabled(s, step) && g in Next(s, step).granted && g !in s.granted
    ensures ConfirmsWith(s, step, g)
  {
    match step
    case Api(call) => CallHistory(s, call);
    case Orchestrate(move) => ReplyFrame(s, move);
    case Notify(move) => MailFrame(s, move);
    case TrackerStep(_, _) =>
    case RelayStep(_) =>
  }

  lemma {:induction false} GrantsComeFromConfirm(s: State, steps: seq<Step>, u: State, g: Tracker.Grant)
      returns (i: nat, t: State)
    requires Run(s, steps, u) && g in u.granted && g !in s.granted
    ensures Earlier(s, steps, i, t) && ConfirmsWith(t, steps[i], g)
    decreases |steps|
  {
    if g in Next(s, steps[0]).granted {
      GrantedNow(s, steps[0], g);
      i, t := 0, s;
      assert steps[..0] == [];
    } else {
      i, t := GrantsComeFromConfirm(Next(s, steps[0]), steps[1..], u, g);
      EarlierInRest(s, steps, i, t);
      i := i + 1;
    }
  }

  /** Double opt-in, end to end: behind every release notification ever put into the tracker's outbox or the
      notifications queue there is an earlier call of Confirm with exactly its token, for exactly its e-mail and
      repository. */
  lemma DoubleOptIn(steps: seq<Step>, s: State, note: Message) returns (i: nat, t: State)
    requires Run(INITIAL, steps, s) && note.Notification?
    requires note in s.queue || Logged(s.tracker.outbox.insertLog, note)
    ensures Earlier(INITIAL, steps, i, t) && ConfirmsWith(t, steps[i], Tracker.Grant(note.key, note.token))
  {
    assert Reachable(s);
    InvHolds(s);
    assert Tracker.Grant(note.key, note.token) in s.granted by {
      if note in s.queue { assert MessageOk(s, note); }
      else { var e :| e in s.tracker.outbox.insertLog && e.message == note; }
    }
    i, t := GrantsComeFromConfirm(INITIAL, steps, s, Tracker.Grant(note.key, note.token));
  }

  ghost predicate Mails(t: State, step: Step, c: Command, result: MailResult) {
    && step.Notify? && step.mail.SendMail? && step.mail.result == result
    && step.mail.delivery in t.mail && t.mail[step.mail.delivery].command == c
  }

  lemma MailedNow(s: State, step: Step, c: Command, success: bool)
    requires Enabled(s, step)
    requires if success then c in Next(s, step).accepted && c !in s.accepted
             else c in Next(s, step).refused && c !in s.refused
    ensures Mails(s, step, c, if success then Accepted else AuthFailed)
  {
    match step
    case Api(call) => CallHistory(s, call);
    case Orchestrate(move) => ReplyFrame(s, move);
    case Notify(_) =>
    case TrackerStep(_, _) =>
    case RelayStep(_) =>
  }

  lemma {:induction false} MailHistory(s: State, steps: seq<Step>, u: State, c: Command, success: bool)
      returns (i: nat, t: State)
    requires Run(s, steps, u)
    requires if success then c in u.accepted && c !in s.accepted else c in u.refused && c !in s.refused
    ensures Earlier(s, steps, i, t) && Mails(t, steps[i], c, if success then Accepted else AuthFailed)
    decreases |steps|
  {
    var next := Next(s, steps[0]);
    if if success then c in next.accepted else c in next.refused {
      MailedNow(s, steps[0], c, success);
      i, t := 0, s;
      assert steps[..0] == [];
    } else {
      i, t := MailHistory(next, steps[1..], u, c, success);
      EarlierInRest(s, steps, i, t);
      i := i + 1;
    }
  }

  /** Outcome soundness across services: a saga is COMPLETED only if SMTP earlier accepted a mail for its own command,
      and COMPENSATED only if a send of its own command earlier failed with something other than "unavailable". */
  lemma OutcomeSoundness(steps: seq<Step>, s: State, id: nat) returns (i: nat, t: State)
    requires Run(INITIAL, steps, s) && id in s.tables.sagas && !s.tables.sagas[id].status.Started?
    ensures id in s.commands && Earlier(INITIAL, steps, i, t)
    ensures Mails(t, steps[i], s.commands[id], if s.tables.sagas[id].status.Completed? then Accepted else AuthFailed)
  {
    assert Reachable(s);
    SagaStates(s, id);
    i, t := MailHistory(INITIAL, steps, s, s.commands[id], s.tables.sagas[id].status.Completed?);
  }

  // ----- the tag copy -----

  ghost predicate TrackerHad(t: State, name: Name, tag: Tag) {
    name in t.tracker.tables.repositories && t.tracker.tables.repositories[name].tag == tag
  }

  /** A moment of the run: the state `t` after the first `i` steps. */
  ghost predicate Moment(s: State, steps: seq<Step>, i: nat, t: State) {
    i <= |steps| && Run(s, steps[..i], t)
  }

  lemma MomentInRest(s: State, steps: seq<Step>, i: nat, t: State)
    requires steps != [] && Enabled(s, steps[0]) && Moment(Next(s, steps[0]), steps[1..], i, t)
    ensures Moment(s, steps, i + 1, t)
  {
    assert steps[..i + 1][1..] == steps[1..][..i];
  }

  lemma TrackerStores(s: State, work: Tracker.Step, settled: bool, stamp: Tracker.Stamp)
    requires Tracker.TagsStored(s.tracker) && Tracker.OptedIn(s.tracker, s.granted) && TrackerEnabled(s, work, settled)
    requires stamp in TrackerNext(s, work, settled).tracker.stored && stamp !in s.tracker.stored
    ensures TrackerHad(TrackerNext(s, work, settled), stamp.name, stamp.tag)
  {
    Tracker.StampsAreRows(s.tracker, work, s.granted, stamp);
  }

  lemma CallStoresNothing(s: State, call: Call)
    requires CallEnabled(s, call)
    ensures CallNext(s, call).tracker.stored == s.tracker.stored
  {
  }

  lemma OthersStoreNothing(s: State, step: Step)
    requires Enabled(s, step) && !step.TrackerStep?
    ensures Next(s, step).tracker.stored == s.tracker.stored
  {
    match step
    case Api(call) => CallStoresNothing(s, call);
    case Notify(move) => MailFrame(s, move);
    case _ =>
  }

  lemma StepStores(s: State, step: Step, stamp: Tracker.Stamp)
    requires Reachable(s) && Enabled(s, step)
    requires stamp in Next(s, step).tracker.stored && stamp !in s.tracker.stored
    ensures TrackerHad(Next(s, step), stamp.name, stamp.tag)
  {
    if step.TrackerStep? {
      assert Tracker.OptedIn(s.tracker, s.granted) && Tracker.TagsStored(s.tracker) by { InvHolds(s); }
      TrackerStores(s, step.work, step.settled, stamp);
    } else {
      OthersStoreNothing(s, step);
    }
  }

  lemma {:induction false} TagsComeFromTracker(s: State, steps: seq<Step>, u: State, stamp: Tracker.Stamp)
      returns (i: nat, t: State)
    requires Reachable(s) && Run(s, steps, u) && stamp in u.tracker.stored && stamp !in s.tracker.stored
    ensures Moment(s, steps, i, t) && TrackerHad(t, stamp.name, stamp.tag)
    decreases |steps|
  {
    var next := Next(s, steps[0]);
    ReachableNext(s, steps[0]);
    if stamp in next.tracker.stored {
      i, t := 0, next;
      StepStores(s, steps[0], stamp);
    } else {
      i, t := TagsComeFromTracker(next, steps[1..], u, stamp);
    }
    MomentInRest(s, steps, i, t);
    i := i + 1;
  }

  /** The tag copy is never invented: the subscription database's tag of a repository is null or one the tracker's row
      of that name held at some moment of the run, whichever updates were lost, delayed or repeated. */
  lemma TagCopyIsNeverInvented(steps: seq<Step>, s: State, name: Name) returns (i: nat, t: State)
    requires Run(INITIAL, steps, s) && name in s.tables.repositories && s.tables.repositories[name].Some?
    ensures Moment(INITIAL, steps, i, t) && TrackerHad(t, name, s.tables.repositories[name].value)
  {
    assert Reachable(s);
    assert Tags(s) by { InvHolds(s); }
    assert Run(INITIAL, [], INITIAL);
    i, t := TagsComeFromTracker(INITIAL, steps, s, Tracker.Stamp(name, s.tables.repositories[name].value));
  }
}
