/** What every step of the protocol keeps. */
module SystemInvariant {
  import opened Contracts
  import Outbox
  import opened SubscriptionTables
  import Tracker
  import opened Replay
  import opened System

  // ----- references -----

  ghost predicate Genuine(s: State, c: Command) {
    c.sagaId in s.commands && s.commands[c.sagaId] == c
  }

  ghost predicate ReplyOk(s: State, r: Reply) {
    Genuine(s, CommandOf(r)) && CommandOf(r) in if r.success then s.accepted else s.refused
  }

  ghost predicate MessageOk(s: State, m: Message) {
    match m
    case Confirmation(c) => Genuine(s, c)
    case Result(r) => ReplyOk(s, r)
    case Activated(key, token) => Tracker.Grant(key, token) in s.granted
    case Unsubscribed(_) => true
    case Notification(key, _, token) => Tracker.Grant(key, token) in s.granted
  }

  ghost predicate MailOk(s: State, t: MailTask) {
    && Genuine(s, t.command)
    && (t.phase.Sent? || (t.phase.Answered? && t.phase.success) ==> t.command in s.accepted)
    && (t.phase.Refused? || (t.phase.Answered? && !t.phase.success) ==> t.command in s.refused)
  }

  ghost predicate DeliveryOk(s: State, t: ReplyTask) {
    ReplyOk(s, t.reply) && (t.phase.Activating? ==> t.reply.success) && (t.phase.Deleting? ==> !t.reply.success)
  }

  ghost predicate RequestOk(s: State, r: Request) {
    match r
    case Registering(name, tag) => Tracker.Stamp(name, tag) in s.tracker.stored
    case Confirming(key, token) => Tracker.Grant(key, token) in s.granted
    case Storing(key, token, _) => Tracker.Grant(key, token) in s.granted
    case _ => true
  }

  /** Every message in the outbox or the broker, every delivery in progress and every request refers to
      something that exists and is what it says. */
  ghost predicate References(s: State) {
    && (forall e :: e in s.outbox.insertLog ==> EntryOk(s, e))
    && (forall m :: m in s.queue ==> MessageOk(s, m))
    && (forall d :: d in s.mail ==> MailOk(s, s.mail[d]))
    && (forall d :: d in s.replies ==> DeliveryOk(s, s.replies[d]))
    && (forall r :: r in s.requests ==> RequestOk(s, s.requests[r]))
  }

  ghost predicate EntryOk(s: State, e: Outbox.Entry) {
    MessageOk(s, e.message) && !e.message.Result? && !e.message.Notification?
  }

  /** History only grows, and then nothing that was right becomes wrong. */
  ghost predicate Extends(s: State, u: State) {
    && (forall id :: id in s.commands ==> id in u.commands && u.commands[id] == s.commands[id])
    && s.accepted <= u.accepted && s.refused <= u.refused && s.granted <= u.granted
    && s.tracker.stored <= u.tracker.stored && s.usedIds <= u.usedIds && s.drawnIds <= u.drawnIds
  }

  // ----- sagas -----

  ghost predicate SagaOk(s: State, id: nat, saga: Saga) {
    && id in s.commands && s.commands[id].sagaId == id && s.commands[id].subscriptionId == saga.subscriptionId
    && saga.subscriptionId in s.usedIds
    && (saga.status.Started? ==> saga.step.SendConfirmation?)
    && (saga.status.Completed? ==> saga.step.ActivateSubscription? && s.commands[id] in s.accepted)
    && (saga.status.Compensated? ==> s.commands[id] in s.refused && !HasRow(s.tables, saga.subscriptionId))
  }

  ghost predicate Sagas(s: State) {
    && s.tables.sagas.Keys == s.commands.Keys
    && (forall id :: id in s.tables.sagas ==> SagaOk(s, id, s.tables.sagas[id]))
    && RowIdsUsed(s)
  }

  ghost predicate RowIdsUsed(s: State) {
    forall key :: key in s.tables.subscriptions ==> s.tables.subscriptions[key].id in s.usedIds
  }

  // ----- what open transactions hold -----

  predicate Saving(r: Request) {
    r.Subscribing? || r.Storing?
  }

  /** An upsert still has the row it updates; one that inserts has an id no committed row ever had. */
  ghost predicate SaveOk(s: State, r: Request) {
    Saving(r) ==>
      && r.id in s.drawnIds
      && if r.key in s.tables.subscriptions then s.tables.subscriptions[r.key].id == r.id else r.id !in s.usedIds
  }

  ghost predicate Inserts(s: State, r: Request) {
    Saving(r) && r.key !in s.tables.subscriptions
  }

  ghost predicate Exclusive(s: State) {
    && (forall r, q, key ::
          r in s.requests && q in s.requests && Changed(s.requests[r], key) && Changed(s.requests[q], key) ==> r == q)
    && (forall r, q | r in s.requests && q in s.requests && Inserts(s, s.requests[r]) && Inserts(s, s.requests[q]) ::
          s.requests[r].id == s.requests[q].id ==> r == q)
    && (forall d, r ::
          d in s.replies && r in s.requests && Saving(s.requests[r]) ==> !DeletesId(s.replies[d], s.requests[r].id))
  }

  ghost predicate Locking(s: State) {
    && s.usedIds <= s.drawnIds
    && (forall r :: r in s.requests ==> SaveOk(s, s.requests[r]))
    && Exclusive(s)
    && (forall d :: d in s.replies && s.replies[d].phase == Deleting(false) ==>
          !HasRow(s.tables, s.replies[d].reply.subscriptionId))
  }

  // ----- no saga is orphaned -----

  ghost predicate Pending(s: State, sagaId: nat) {
    sagaId in s.tables.sagas && s.tables.sagas[sagaId].status.Started?
  }

  ghost predicate Answering(s: State, c: Command) {
    Result(ReplyTo(c, true)) in s.queue || Result(ReplyTo(c, false)) in s.queue || !Pending(s, c.sagaId)
  }

  ghost predicate Covered(s: State, c: Command) {
    Confirmation(c) in s.queue || Answering(s, c)
  }

  ghost predicate Logged(log: seq<Outbox.Entry>, m: Message) {
    exists e :: e in log && e.message == m
  }

  ghost predicate Progressing(s: State) {
    && (forall id :: id in s.commands ==> Logged(s.outbox.insertLog, Confirmation(s.commands[id])))
    && (forall e | e in s.outbox.insertLog && e.id in s.outbox.sendLog && e.message.Confirmation? ::
          Covered(s, e.message.command))
    && (forall d :: d in s.mail && s.mail[d].phase.Answered? ==> Answering(s, s.mail[d].command))
    && (forall d :: d in s.replies && s.replies[d].phase.Handled? ==> !Pending(s, s.replies[d].reply.sagaId))
  }

  // ----- tags -----

  ghost predicate Tags(s: State) {
    && Tracker.TagsStored(s.tracker)
    && (forall n :: n in s.tables.repositories && s.tables.repositories[n].Some? ==>
          Tracker.Stamp(n, s.tables.repositories[n].value) in s.tracker.stored)
  }

  // ----- replay -----

  function Messages(log: seq<Outbox.Entry>): (ms: seq<Message>)
    ensures |ms| == |log| && forall i :: 0 <= i < |log| ==> ms[i] == log[i].message
  {
    seq(|log|, i requires 0 <= i < |log| => log[i].message)
  }

  ghost predicate IsConfirmed(s: State, key: Key) {
    key in s.tables.subscriptions && s.tables.subscriptions[key].confirmed
  }

  /** Replaying the committed events maps a confirmed key to its token or, if a removal that had found no row was
      committed since, to nothing. */
  ghost predicate ReplayIsExact(s: State) {
    var m := ApplyAll(map[], Messages(s.outbox.insertLog));
    forall key :: IsConfirmed(s, key) ==>
      if key in s.emptied then key !in m else key in m && m[key] == s.tables.subscriptions[key].token
  }

  ghost predicate Inv(s: State) {
    && Outbox.Inv(s.outbox) && Outbox.Inv(s.tracker.outbox)
    && References(s) && Sagas(s) && Locking(s) && Progressing(s) && Tags(s)
    && Tracker.OptedIn(s.tracker, s.granted) && ReplayIsExact(s)
  }

  // ----- what a call leaves alone -----

  predicate IsCommit(call: Call) {
    call.SubscribeCommit? || call.ConfirmCommit? || call.RemoveCommit?
  }

  /** The message a commit writes. */
  function Written(s: State, call: Call): Message
    requires IsCommit(call) && call.request in s.requests
    requires var c := s.requests[call.request]; c.Subscribing? || c.Storing? || c.Removing?
  {
    Writes(s.requests[call.request], if call.SubscribeCommit? then call.sagaId else 0)
  }

  /** A call that commits no transaction leaves rows, sagas, the outbox and what they are measured by alone. */
  lemma QuietFrame(s: State, call: Call)
    requires CallEnabled(s, call) && !IsCommit(call)
    ensures
      var u := CallNext(s, call);
      && u.tables.subscriptions == s.tables.subscriptions && u.tables.sagas == s.tables.sagas
      && u.outbox == s.outbox && u.commands == s.commands && u.usedIds == s.usedIds && u.emptied == s.emptied
  {
  }

  /** A commit adds one row to the outbox and ends the request. */
  lemma CommitFrame(s: State, call: Call)
    requires CallEnabled(s, call) && IsCommit(call)
    ensures
      var u := CallNext(s, call);
      && u == s.(tables := u.tables, outbox := u.outbox, requests := s.requests - {call.request},
                 usedIds := u.usedIds, commands := u.commands, emptied := u.emptied)
      && u.tables.repositories == s.tables.repositories
      && u.outbox == Committed(s, call.rowId, Written(s, call))
  {
  }

  lemma CallFrame(s: State, call: Call)
    requires CallEnabled(s, call)
    ensures
      var u := CallNext(s, call);
      u.mail == s.mail && u.replies == s.replies && u.queue == s.queue && u.tracker.outbox == s.tracker.outbox
  {
  }

  // ----- outboxes -----

  lemma CommitKeepsOutbox(s: State, rowId: nat, m: Message)
    requires Outbox.Inv(s.outbox) && CanCommit(s, rowId)
    ensures Outbox.Inv(Committed(s, rowId, m))
  {
    CommittedIsAStep(s, rowId, m);
    Outbox.StepKeeps(s.outbox, Event(rowId, m));
  }

  lemma CallKeepsOutbox(s: State, call: Call)
    requires Outbox.Inv(s.outbox) && CallEnabled(s, call)
    ensures Outbox.Inv(CallNext(s, call).outbox)
  {
    if IsCommit(call) {
      CommitFrame(s, call);
      CommitKeepsOutbox(s, call.rowId, Written(s, call));
    } else {
      QuietFrame(s, call);
    }
  }

  lemma TrackerKeepsOutbox(t: Tracker.State, work: Tracker.Step)
    requires Outbox.Inv(t.outbox) && Tracker.Enabled(t, work)
    ensures Outbox.Inv(Tracker.Next(t, work).outbox)
  {
    match work
    case Release(_, entries) => Outbox.StepKeeps(t.outbox, Outbox.Commit(entries));
    case Relay(o) => Outbox.StepKeeps(t.outbox, o);
    case _ =>
  }

  // ----- history -----

  lemma Monotone(s: State, u: State)
    requires Extends(s, u)
    ensures forall m :: MessageOk(s, m) ==> MessageOk(u, m)
    ensures forall t :: MailOk(s, t) ==> MailOk(u, t)
    ensures forall r :: ReplyOk(s, r) ==> ReplyOk(u, r)
    ensures forall t :: DeliveryOk(s, t) ==> DeliveryOk(u, t)
    ensures forall r :: RequestOk(s, r) ==> RequestOk(u, r)
  {
  }

  lemma CallExtends(s: State, call: Call)
    requires CallEnabled(s, call)
    ensures Extends(s, CallNext(s, call))
  {
  }

  lemma ReplyExtends(s: State, move: ReplyMove)
    requires ReplyEnabled(s, move)
    ensures Extends(s, ReplyNext(s, move))
  {
  }

  lemma MailExtends(s: State, move: MailMove)
    requires MailEnabled(s, move)
    ensures Extends(s, MailNext(s, move))
  {
  }

  lemma TrackerExtends(s: State, work: Tracker.Step, settled: bool)
    requires TrackerEnabled(s, work, settled)
    ensures Extends(s, TrackerNext(s, work, settled))
  {
  }

  // ----- references -----

  lemma NewEntryOk(s: State, call: Call)
    requires References(s) && CallEnabled(s, call) && IsCommit(call)
    ensures
      var m := Written(s, call);
      EntryOk(CallNext(s, call), Outbox.Entry(call.rowId, m))
  {
    assert RequestOk(s, s.requests[call.request]);
  }

  lemma CallKeepsEntries(s: State, call: Call)
    requires References(s) && CallEnabled(s, call)
    ensures forall e :: e in CallNext(s, call).outbox.insertLog ==> EntryOk(CallNext(s, call), e)
  {
    var u := CallNext(s, call);
    CallExtends(s, call);
    Monotone(s, u);
    if IsCommit(call) { NewEntryOk(s, call); CommitFrame(s, call); } else { QuietFrame(s, call); }
    forall e | e in u.outbox.insertLog ensures EntryOk(u, e) {
      if e in s.outbox.insertLog { assert EntryOk(s, e); }
    }
  }

  /** The request a call works on, if it is still there, is in order. */
  lemma CalledRequestOk(s: State, call: Call, r: nat)
    requires References(s) && Tracker.TagsStored(s.tracker) && CallEnabled(s, call) && !IsCommit(call)
    requires r in CallNext(s, call).requests && (r in s.requests ==> CallNext(s, call).requests[r] != s.requests[r])
    ensures RequestOk(CallNext(s, call), CallNext(s, call).requests[r])
  {
    if r in s.requests { assert RequestOk(s, s.requests[r]); }
    hide References;
  }

  lemma CallKeepsRequests(s: State, call: Call)
    requires References(s) && Tracker.TagsStored(s.tracker) && CallEnabled(s, call)
    ensures forall r :: r in CallNext(s, call).requests ==> RequestOk(CallNext(s, call), CallNext(s, call).requests[r])
  {
    var u := CallNext(s, call);
    CallExtends(s, call);
    Monotone(s, u);
    if IsCommit(call) { CommitFrame(s, call); }
    forall r | r in u.requests ensures RequestOk(u, u.requests[r]) {
      if r in s.requests && u.requests[r] == s.requests[r] {
        assert RequestOk(s, s.requests[r]);
      } else {
        CalledRequestOk(s, call, r);
      }
    }
  }

  lemma CallKeepsReferences(s: State, call: Call)
    requires References(s) && Tracker.TagsStored(s.tracker) && CallEnabled(s, call)
    ensures References(CallNext(s, call))
  {
    CallExtends(s, call);
    Monotone(s, CallNext(s, call));
    CallKeepsEntries(s, call);
    CallKeepsRequests(s, call);
    CallFrame(s, call);
  }

  lemma ReplyKeepsDeliveries(s: State, move: ReplyMove)
    requires References(s) && ReplyEnabled(s, move)
    ensures forall d :: d in ReplyNext(s, move).replies ==> DeliveryOk(s, ReplyNext(s, move).replies[d])
  {
    var u := ReplyNext(s, move);
    forall d | d in u.replies ensures DeliveryOk(s, u.replies[d]) {
      if move.TakeReply? { assert MessageOk(s, Result(move.reply)); }
      if d in s.replies { assert DeliveryOk(s, s.replies[d]); }
    }
  }

  lemma ReplyTakesOnlySettled(s: State, move: ReplyMove)
    requires ReplyEnabled(s, move)
    ensures forall m :: m in ReplyNext(s, move).queue ==> m in s.queue
  {
  }

  lemma ReplyKeepsReferences(s: State, move: ReplyMove)
    requires References(s) && ReplyEnabled(s, move)
    ensures References(ReplyNext(s, move))
  {
    var u := ReplyNext(s, move);
    ReplyFrame(s, move);
    ReplyTakesOnlySettled(s, move);
    ReplyKeepsDeliveries(s, move);
    Monotone(s, u);
    forall e | e in u.outbox.insertLog ensures EntryOk(u, e) { assert EntryOk(s, e); }
  }

  lemma MovedMailOk(s: State, move: MailMove)
    requires References(s) && MailEnabled(s, move) && !move.TakeNote? && move.delivery in MailNext(s, move).mail
    ensures MailOk(MailNext(s, move), MailNext(s, move).mail[move.delivery])
  {
    if move.TakeCommand? { assert MessageOk(s, Confirmation(move.command)); }
    if move.delivery in s.mail { assert MailOk(s, s.mail[move.delivery]); }
  }

  lemma OtherMail(s: State, move: MailMove, d: nat)
    requires MailEnabled(s, move) && d in MailNext(s, move).mail && (move.TakeNote? || d != move.delivery)
    ensures d in s.mail && s.mail[d] == MailNext(s, move).mail[d]
  {
    match move
    case TakeCommand(_, _) =>
    case SendMail(_, result) =>
      match result {
        case Accepted =>
        case AuthFailed =>
        case Unavailable =>
      }
    case Answer(_, _) =>
    case EndMail(_, _) =>
    case TakeNote(_) =>
  }

  lemma MailKeepsTasks(s: State, move: MailMove)
    requires References(s) && MailEnabled(s, move)
    ensures forall d :: d in MailNext(s, move).mail ==> MailOk(MailNext(s, move), MailNext(s, move).mail[d])
  {
    var u := MailNext(s, move);
    MailExtends(s, move);
    Monotone(s, u);
    forall d | d in u.mail ensures MailOk(u, u.mail[d]) {
      if !move.TakeNote? && d == move.delivery {
        MovedMailOk(s, move);
      } else {
        OtherMail(s, move, d);
        assert MailOk(s, s.mail[d]);
      }
    }
  }

  lemma MailKeepsQueue(s: State, move: MailMove)
    requires References(s) && MailEnabled(s, move)
    ensures forall m :: m in MailNext(s, move).queue ==> MessageOk(MailNext(s, move), m)
  {
    var u := MailNext(s, move);
    MailExtends(s, move);
    Monotone(s, u);
    forall m | m in u.queue ensures MessageOk(u, m) {
      if m !in s.queue { assert MailOk(s, s.mail[move.delivery]); }
    }
  }

  lemma MailKeepsReferences(s: State, move: MailMove)
    requires References(s) && MailEnabled(s, move)
    ensures References(MailNext(s, move))
  {
    var u := MailNext(s, move);
    MailFrame(s, move);
    MailExtends(s, move);
    Monotone(s, u);
    MailKeepsTasks(s, move);
    MailKeepsQueue(s, move);
    forall e | e in u.outbox.insertLog ensures EntryOk(u, e) { assert EntryOk(s, e); }
  }

  lemma PublishedIsLogged(o: Outbox.State, step: Outbox.Step, m: Message)
    requires Outbox.Rows(o) && m in Outbox.Published(o, step)
    ensures exists e :: e in o.insertLog && e.message == m
  {
    var id := o.open[step.relay].ids[o.open[step.relay].done];
    assert Outbox.Entry(id, o.table[id].message) in o.insertLog;
  }

  lemma RelayKeepsReferences(s: State, o: Outbox.Step)
    requires References(s) && Outbox.Rows(s.outbox) && Enabled(s, RelayStep(o))
    ensures References(Next(s, RelayStep(o)))
  {
    var u := Next(s, RelayStep(o));
    Monotone(s, u);
    assert u.outbox.insertLog == s.outbox.insertLog;
    forall e | e in u.outbox.insertLog ensures EntryOk(u, e) { assert EntryOk(s, e); }
    forall m | m in u.queue ensures MessageOk(u, m) {
      if m !in s.queue {
        PublishedIsLogged(s.outbox, o, m);
        var e :| e in s.outbox.insertLog && e.message == m;
        assert EntryOk(s, e);
      }
    }
  }

  lemma TrackerKeepsReferences(s: State, work: Tracker.Step, settled: bool)
    requires References(s) && Outbox.Rows(s.tracker.outbox) && Tracker.NotesOk(s.tracker, s.granted)
    requires TrackerEnabled(s, work, settled)
    ensures References(TrackerNext(s, work, settled))
  {
    var u := TrackerNext(s, work, settled);
    TrackerExtends(s, work, settled);
    Monotone(s, u);
    forall e | e in u.outbox.insertLog ensures EntryOk(u, e) { assert EntryOk(s, e); }
    forall m | m in u.queue ensures MessageOk(u, m) {
      if m !in s.queue { PublishedIsLogged(s.tracker.outbox, work.step, m); }
    }
  }

  // ----- sagas -----

  lemma RowsAfterSave(s: State, r: Request, confirmed: bool, id: nat, u: State)
    requires Saving(r) && SaveOk(s, r) && id in s.usedIds
    requires u.tables.subscriptions == Put(s.tables, r.key, r.id, r.token, confirmed).subscriptions
    ensures HasRow(u.tables, id) ==> HasRow(s.tables, id)
  {
    if HasRow(u.tables, id) {
      var k :| k in u.tables.subscriptions && u.tables.subscriptions[k].id == id;
      assert k in s.tables.subscriptions;
    }
  }

  lemma NoNewRows(s: State, u: State, id: nat)
    requires forall k :: k in u.tables.subscriptions ==>
      k in s.tables.subscriptions && u.tables.subscriptions[k] == s.tables.subscriptions[k]
    ensures HasRow(u.tables, id) ==> HasRow(s.tables, id)
  {
    if HasRow(u.tables, id) {
      var k :| k in u.tables.subscriptions && u.tables.subscriptions[k].id == id;
      assert k in s.tables.subscriptions;
    }
  }

  lemma RowsAfterCommit(s: State, call: Call, id: nat)
    requires Locking(s) && CallEnabled(s, call) && IsCommit(call) && id in s.usedIds
    ensures HasRow(CallNext(s, call).tables, id) ==> HasRow(s.tables, id)
  {
    hide HasRow;
    var u := CallNext(s, call);
    match call
    case SubscribeCommit(r, _, _) => RowsAfterSave(s, s.requests[r], false, id, u);
    case ConfirmCommit(r, _) => RowsAfterSave(s, s.requests[r], true, id, u);
    case RemoveCommit(_, _) => NoNewRows(s, u, id);
  }

  /** Only the two upserts bring a row in, and a row they insert has an id no committed row ever had. */
  lemma RowsAfterCall(s: State, call: Call, id: nat)
    requires Locking(s) && CallEnabled(s, call) && id in s.usedIds
    ensures HasRow(CallNext(s, call).tables, id) ==> HasRow(s.tables, id)
  {
    if IsCommit(call) {
      RowsAfterCommit(s, call, id);
    } else {
      QuietFrame(s, call);
    }
  }

  lemma OldSagaKept(s: State, call: Call, id: nat)
    requires Sagas(s) && Locking(s) && CallEnabled(s, call) && id in s.tables.sagas
    ensures id in CallNext(s, call).tables.sagas && SagaOk(CallNext(s, call), id, CallNext(s, call).tables.sagas[id])
  {
    CallExtends(s, call);
    assert SagaOk(s, id, s.tables.sagas[id]);
    RowsAfterCall(s, call, s.tables.sagas[id].subscriptionId);
    SagaRowKept(s, call, id);
  }

  lemma SagaRowKept(s: State, call: Call, id: nat)
    requires CallEnabled(s, call) && s.tables.sagas.Keys == s.commands.Keys && id in s.tables.sagas
    ensures id in CallNext(s, call).tables.sagas && CallNext(s, call).tables.sagas[id] == s.tables.sagas[id]
  {
    if !IsCommit(call) { QuietFrame(s, call); }
  }

  lemma NewSagaOk(s: State, r: nat, sagaId: nat, rowId: nat)
    requires Sagas(s) && CallEnabled(s, SubscribeCommit(r, sagaId, rowId))
    ensures var u := CallNext(s, SubscribeCommit(r, sagaId, rowId));
      && sagaId in u.tables.sagas && SagaOk(u, sagaId, u.tables.sagas[sagaId])
      && u.tables.sagas.Keys == u.commands.Keys == s.tables.sagas.Keys + {sagaId}
  {
  }

  lemma CallKeepsRowIds(s: State, call: Call)
    requires Sagas(s) && CallEnabled(s, call)
    ensures
      var u := CallNext(s, call);
      forall key :: key in u.tables.subscriptions ==> u.tables.subscriptions[key].id in u.usedIds
  {
    if !IsCommit(call) { QuietFrame(s, call); }
  }

  lemma CallKeepsSagas(s: State, call: Call)
    requires Sagas(s) && Locking(s) && CallEnabled(s, call)
    ensures Sagas(CallNext(s, call))
  {
    var u := CallNext(s, call);
    CallKeepsRowIds(s, call);
    SagaKeys(s, call);
    forall id | id in u.tables.sagas ensures SagaOk(u, id, u.tables.sagas[id]) {
      if id in s.tables.sagas {
        OldSagaKept(s, call, id);
      } else {
        NewSagaOk(s, call.request, call.sagaId, call.rowId);
      }
    }
  }

  lemma SagaKeys(s: State, call: Call)
    requires CallEnabled(s, call) && s.tables.sagas.Keys == s.commands.Keys
    ensures
      var u := CallNext(s, call);
      && u.tables.sagas.Keys == u.commands.Keys
      && forall id :: id in u.tables.sagas && id !in s.tables.sagas ==> call.SubscribeCommit? && id == call.sagaId
  {
    if !IsCommit(call) { QuietFrame(s, call); }
  }

  /** Compensation leaves no row of its id: its DELETE removed the row, or found none and none can come back. */
  lemma UndoneRow(s: State, d: nat)
    requires Locking(s) && ReplyEnabled(s, Undo(d))
    ensures !HasRow(ReplyNext(s, Undo(d)).tables, s.replies[d].reply.subscriptionId)
  {
    if s.replies[d].phase == Deleting(false) {
      NoNewRows(s, ReplyNext(s, Undo(d)), s.replies[d].reply.subscriptionId);
    }
  }

  lemma UndoneSaga(s: State, d: nat, id: nat)
    requires ReplyEnabled(s, Undo(d)) && DeliveryOk(s, s.replies[d]) && Sagas(s) && id in s.tables.sagas
    requires !HasRow(ReplyNext(s, Undo(d)).tables, s.replies[d].reply.subscriptionId)
    ensures var u := ReplyNext(s, Undo(d)); id in u.tables.sagas && SagaOk(u, id, u.tables.sagas[id])
  {
    assert SagaOk(s, id, s.tables.sagas[id]);
    NoNewRows(s, ReplyNext(s, Undo(d)), s.tables.sagas[id].subscriptionId);
  }

  lemma UndoKeepsSagas(s: State, d: nat)
    requires References(s) && Sagas(s) && Locking(s) && ReplyEnabled(s, Undo(d))
    ensures Sagas(ReplyNext(s, Undo(d)))
  {
    hide Locking, SagaOk;
    assert DeliveryOk(s, s.replies[d]);
    UndoneRow(s, d);
    var u := ReplyNext(s, Undo(d));
    forall id | id in u.tables.sagas ensures SagaOk(u, id, u.tables.sagas[id]) { UndoneSaga(s, d, id); }
  }

  lemma ReplyKeepsSagas(s: State, move: ReplyMove)
    requires References(s) && Sagas(s) && Locking(s) && ReplyEnabled(s, move)
    ensures Sagas(ReplyNext(s, move))
  {
    if move.Undo? {
      UndoKeepsSagas(s, move.delivery);
    } else {
      OtherReplyKeepsSagas(s, move);
    }
  }

  lemma OtherReplyKeepsSaga(s: State, move: ReplyMove, id: nat)
    requires Sagas(s) && ReplyEnabled(s, move) && !move.Undo? && id in s.tables.sagas
    requires move.WriteSaga? ==> DeliveryOk(s, s.replies[move.delivery])
    ensures var u := ReplyNext(s, move); id in u.tables.sagas && SagaOk(u, id, u.tables.sagas[id])
  {
    assert SagaOk(s, id, s.tables.sagas[id]);
    NoNewRows(s, ReplyNext(s, move), s.tables.sagas[id].subscriptionId);
  }

  lemma OtherReplyKeepsSagas(s: State, move: ReplyMove)
    requires References(s) && Sagas(s) && ReplyEnabled(s, move) && !move.Undo?
    ensures Sagas(ReplyNext(s, move))
  {
    var u := ReplyNext(s, move);
    forall id | id in u.tables.sagas ensures SagaOk(u, id, u.tables.sagas[id]) { OtherReplyKeepsSaga(s, move, id); }
  }

  lemma SameSagas(s: State, u: State)
    requires Sagas(s) && Extends(s, u) && u.tables == s.tables && u.commands == s.commands
    ensures Sagas(u)
  {
    forall id | id in u.tables.sagas ensures SagaOk(u, id, u.tables.sagas[id]) {
      assert SagaOk(s, id, s.tables.sagas[id]);
      NoNewRows(s, u, u.tables.sagas[id].subscriptionId);
    }
  }

  // ----- no saga is orphaned -----

  /** What still covers one command after one step of a service. */
  lemma CallCovers(s: State, call: Call, c: Command)
    requires CallEnabled(s, call) && s.tables.sagas.Keys == s.commands.Keys && c.sagaId in s.commands
    ensures Answering(s, c) ==> Answering(CallNext(s, call), c)
    ensures Covered(s, c) ==> Covered(CallNext(s, call), c)
  {
    CallFrame(s, call);
    CallCreatesPending(s, call, c.sagaId);
  }

  lemma ReplyCovers(s: State, move: ReplyMove, c: Command)
    requires ReplyEnabled(s, move)
    requires move.EndReply? && move.settled ==> !Pending(s, s.replies[move.delivery].reply.sagaId)
    ensures Answering(s, c) ==> Answering(ReplyNext(s, move), c)
    ensures Covered(s, c) ==> Covered(ReplyNext(s, move), c)
  {
    assert Pending(ReplyNext(s, move), c.sagaId) ==> Pending(s, c.sagaId);
  }

  lemma MailFrame(s: State, move: MailMove)
    requires MailEnabled(s, move)
    ensures var u := MailNext(s, move);
      u == s.(mail := u.mail, queue := u.queue, accepted := u.accepted, refused := u.refused)
  {
  }

  /** The message an acknowledgement of the notification service takes out of the broker. */
  ghost function Settles(s: State, move: MailMove): multiset<Message>
    requires MailEnabled(s, move)
  {
    match move
    case EndMail(d, true) => multiset{Confirmation(s.mail[d].command)}
    case TakeNote(note) => multiset{note}
    case _ => multiset{}
  }

  lemma MailTakesOnlySettled(s: State, move: MailMove)
    requires MailEnabled(s, move)
    ensures forall m :: m in s.queue && m !in Settles(s, move) ==> m in MailNext(s, move).queue
  {
  }

  lemma MailCovers(s: State, move: MailMove, c: Command)
    requires MailEnabled(s, move)
    requires move.EndMail? && move.settled ==> Answering(s, s.mail[move.delivery].command)
    ensures Answering(s, c) ==> Answering(MailNext(s, move), c)
    ensures Covered(s, c) ==> Covered(MailNext(s, move), c)
  {
    MailFrame(s, move);
    MailTakesOnlySettled(s, move);
    assert Pending(MailNext(s, move), c.sagaId) <==> Pending(s, c.sagaId);
  }

  lemma ProgressFrom(s: State, u: State)
    requires Progressing(s) && u.outbox == s.outbox && u.commands == s.commands
    requires forall c :: Covered(s, c) ==> Covered(u, c)
    requires forall d :: d in u.mail && u.mail[d].phase.Answered? ==> Answering(u, u.mail[d].command)
    requires forall d :: d in u.replies && u.replies[d].phase.Handled? ==> !Pending(u, u.replies[d].reply.sagaId)
    ensures Progressing(u)
  {
    forall e | e in u.outbox.insertLog && e.id in u.outbox.sendLog && e.message.Confirmation?
      ensures Covered(u, e.message.command)
    {
      assert Covered(s, e.message.command);
    }
  }

  lemma LogGrows(log: seq<Outbox.Entry>, more: seq<Outbox.Entry>, m: Message)
    requires Logged(log, m)
    ensures Logged(log + more, m)
  {
    var e :| e in log && e.message == m;
    assert e in log + more;
  }

  lemma CallKeepsLog(s: State, call: Call)
    requires Progressing(s) && CallEnabled(s, call)
    ensures
      var u := CallNext(s, call);
      forall id :: id in u.commands ==> Logged(u.outbox.insertLog, Confirmation(u.commands[id]))
  {
    var u := CallNext(s, call);
    if IsCommit(call) { CommitKeepsLog(s, call); } else { QuietFrame(s, call); }
  }

  lemma CommitKeepsLog(s: State, call: Call)
    requires Progressing(s) && CallEnabled(s, call) && IsCommit(call)
    ensures
      var u := CallNext(s, call);
      forall id :: id in u.commands ==> Logged(u.outbox.insertLog, Confirmation(u.commands[id]))
  {
    var u := CallNext(s, call);
    var more := u.outbox.insertLog[|s.outbox.insertLog|..];
    assert u.outbox.insertLog == s.outbox.insertLog + more;
    forall id | id in u.commands ensures Logged(u.outbox.insertLog, Confirmation(u.commands[id])) {
      if id in s.commands {
        LogGrows(s.outbox.insertLog, more, Confirmation(s.commands[id]));
      } else {
        assert Outbox.Entry(call.rowId, Confirmation(u.commands[id])) in u.outbox.insertLog;
      }
    }
  }

  lemma NewRowsAreUnsent(s: State, call: Call, e: Outbox.Entry)
    requires Outbox.Balance(s.outbox) && CallEnabled(s, call) && e in CallNext(s, call).outbox.insertLog
    ensures CallNext(s, call).outbox.sendLog == s.outbox.sendLog
    ensures e in s.outbox.insertLog || e.id !in s.outbox.sendLog
  {
    if IsCommit(call) { CommitFrame(s, call); } else { QuietFrame(s, call); }
    if e !in s.outbox.insertLog {
      assert !Outbox.Issued(s.outbox, e.id) && Outbox.Sends(s.outbox, e.id) == 0;
      assert e.id !in multiset(s.outbox.sendLog);
    }
  }

  lemma CallKeepsSent(s: State, call: Call, e: Outbox.Entry)
    requires Outbox.Balance(s.outbox) && References(s) && Sagas(s) && Progressing(s) && CallEnabled(s, call)
    requires e in CallNext(s, call).outbox.insertLog && e.id in CallNext(s, call).outbox.sendLog
    requires e.message.Confirmation?
    ensures Covered(CallNext(s, call), e.message.command)
  {
    NewRowsAreUnsent(s, call, e);
    assert EntryOk(s, e);
    CallCovers(s, call, e.message.command);
  }

  lemma CallKeepsProgress(s: State, call: Call)
    requires Outbox.Balance(s.outbox) && References(s) && Sagas(s) && Progressing(s) && CallEnabled(s, call)
    ensures Progressing(CallNext(s, call))
  {
    var u := CallNext(s, call);
    CallKeepsLog(s, call);
    CallFrame(s, call);
    forall e | e in u.outbox.insertLog && e.id in u.outbox.sendLog && e.message.Confirmation?
      ensures Covered(u, e.message.command)
    {
      CallKeepsSent(s, call, e);
    }
    forall d | d in u.mail && u.mail[d].phase.Answered? ensures Answering(u, u.mail[d].command) {
      assert MailOk(s, s.mail[d]);
      CallCovers(s, call, u.mail[d].command);
    }
    forall d | d in u.replies && u.replies[d].phase.Handled? ensures !Pending(u, u.replies[d].reply.sagaId) {
      assert DeliveryOk(s, s.replies[d]);
      CallCreatesPending(s, call, u.replies[d].reply.sagaId);
    }
  }

  lemma CallCreatesPending(s: State, call: Call, id: nat)
    requires CallEnabled(s, call) && id in s.commands && s.tables.sagas.Keys == s.commands.Keys
    ensures Pending(CallNext(s, call), id) ==> Pending(s, id)
  {
    SagaRowKept(s, call, id);
  }

  lemma HandlingEnds(s: State, move: ReplyMove)
    requires ReplyEnabled(s, move) && (move.ReadSaga? || move.WriteSaga? || move.Undo?)
    requires DeliveryOk(s, s.replies[move.delivery]) && s.tables.sagas.Keys == s.commands.Keys
    ensures
      var u := ReplyNext(s, move);
      u.replies[move.delivery].phase.Handled? ==> !Pending(u, s.replies[move.delivery].reply.sagaId)
  {
  }

  lemma OtherDelivery(s: State, move: ReplyMove, d: nat)
    requires ReplyEnabled(s, move) && d in ReplyNext(s, move).replies && ReplyNext(s, move).replies[d].phase.Handled?
    requires d != move.delivery || !(move.ReadSaga? || move.WriteSaga? || move.Undo?)
    ensures d in s.replies && s.replies[d] == ReplyNext(s, move).replies[d]
  {
  }

  lemma ReplyKeepsHandled(s: State, move: ReplyMove, d: nat)
    requires References(s) && Sagas(s) && Progressing(s) && ReplyEnabled(s, move)
    requires d in ReplyNext(s, move).replies && ReplyNext(s, move).replies[d].phase.Handled?
    ensures !Pending(ReplyNext(s, move), ReplyNext(s, move).replies[d].reply.sagaId)
  {
    if d == move.delivery && (move.ReadSaga? || move.WriteSaga? || move.Undo?) {
      assert DeliveryOk(s, s.replies[d]);
      HandlingEnds(s, move);
      SameReply(s, move);
    } else {
      OtherDelivery(s, move, d);
      ReplyStartsNothing(s, move, s.replies[d].reply.sagaId);
    }
  }

  lemma SameReply(s: State, move: ReplyMove)
    requires ReplyEnabled(s, move) && (move.ReadSaga? || move.WriteSaga? || move.Undo?)
    ensures ReplyNext(s, move).replies[move.delivery].reply == s.replies[move.delivery].reply
  {
  }

  lemma ReplyStartsNothing(s: State, move: ReplyMove, id: nat)
    requires ReplyEnabled(s, move)
    ensures Pending(ReplyNext(s, move), id) ==> Pending(s, id)
  {
  }

  lemma ReplyKeepsProgress(s: State, move: ReplyMove)
    requires References(s) && Sagas(s) && Progressing(s) && ReplyEnabled(s, move)
    ensures Progressing(ReplyNext(s, move))
  {
    hide References, Sagas;
    var u := ReplyNext(s, move);
    forall e | e in u.outbox.insertLog && e.id in u.outbox.sendLog && e.message.Confirmation?
      ensures Covered(u, e.message.command)
    {
      ReplyCovers(s, move, e.message.command);
    }
    forall d | d in u.mail && u.mail[d].phase.Answered? ensures Answering(u, u.mail[d].command) {
      ReplyCovers(s, move, u.mail[d].command);
    }
    forall d | d in u.replies && u.replies[d].phase.Handled? ensures !Pending(u, u.replies[d].reply.sagaId) {
      ReplyKeepsHandled(s, move, d);
    }
  }

  lemma AnswersArePublished(s: State, move: MailMove, d: nat)
    requires MailEnabled(s, move) && d in MailNext(s, move).mail && MailNext(s, move).mail[d].phase.Answered?
    ensures
      || (d in s.mail && s.mail[d] == MailNext(s, move).mail[d])
      || exists b :: Result(ReplyTo(MailNext(s, move).mail[d].command, b)) in MailNext(s, move).queue
  {
    if move.Answer? && move.delivery == d {
      assert Result(ReplyTo(s.mail[d].command, s.mail[d].phase.Sent?)) in MailNext(s, move).queue;
    }
  }

  lemma MailKeepsAnswered(s: State, move: MailMove, d: nat)
    requires Progressing(s) && MailEnabled(s, move)
    requires d in MailNext(s, move).mail && MailNext(s, move).mail[d].phase.Answered?
    ensures Answering(MailNext(s, move), MailNext(s, move).mail[d].command)
  {
    AnswersArePublished(s, move, d);
    if d in s.mail && s.mail[d] == MailNext(s, move).mail[d] { MailCovers(s, move, s.mail[d].command); }
  }

  lemma MailKeepsProgress(s: State, move: MailMove)
    requires Progressing(s) && MailEnabled(s, move)
    ensures Progressing(MailNext(s, move))
  {
    var u := MailNext(s, move);
    MailFrame(s, move);
    forall c ensures Covered(s, c) ==> Covered(u, c) { MailCovers(s, move, c); }
    forall d | d in u.mail && u.mail[d].phase.Answered? ensures Answering(u, u.mail[d].command) {
      MailKeepsAnswered(s, move, d);
    }
    assert forall id :: Pending(u, id) <==> Pending(s, id);
    ProgressFrom(s, u);
  }

  /** What a relay reports as published is in the broker. */
  lemma SentIsQueued(s: State, o: Outbox.Step, e: Outbox.Entry)
    requires Outbox.Inv(s.outbox) && !o.Commit? && Outbox.Enabled(s.outbox, o) && e in s.outbox.insertLog
    requires e.id in Outbox.Next(s.outbox, o).sendLog && e.id !in s.outbox.sendLog
    ensures e.message in Outbox.Published(s.outbox, o)
  {
    var b := s.outbox.open[o.relay];
    assert Outbox.BatchFits(s.outbox.table, b) && Outbox.IsPending(s.outbox.table, b.ids[b.done]);
    Outbox.Kept(s.outbox, e);
  }

  lemma RelayedProgress(s: State, o: Outbox.Step, u: State)
    requires Outbox.Inv(s.outbox) && Progressing(s) && !o.Commit? && Outbox.Enabled(s.outbox, o)
    requires u == s.(outbox := Outbox.Next(s.outbox, o), queue := s.queue + Outbox.Published(s.outbox, o))
    ensures Progressing(u)
  {
    hide Outbox.Inv, Outbox.Enabled;
    assert u.outbox.insertLog == s.outbox.insertLog;
    forall e | e in u.outbox.insertLog && e.id in u.outbox.sendLog && e.message.Confirmation?
      ensures Covered(u, e.message.command)
    {
      if e.id in s.outbox.sendLog { assert Covered(s, e.message.command); } else { SentIsQueued(s, o, e); }
    }
  }

  lemma RelayKeepsProgress(s: State, o: Outbox.Step)
    requires Outbox.Inv(s.outbox) && Progressing(s) && Enabled(s, RelayStep(o))
    ensures Progressing(Next(s, RelayStep(o)))
  {
    RelayFrame(s, o);
    RelayedProgress(s, o, Next(s, RelayStep(o)));
  }

  lemma TrackerTakesOnlyEvents(s: State, work: Tracker.Step, settled: bool)
    requires Tracker.OptedIn(s.tracker, s.granted) && TrackerEnabled(s, work, settled)
    ensures forall m :: m in s.queue && (m.Confirmation? || m.Result?) ==> m in TrackerNext(s, work, settled).queue
  {
    if settled { assert Tracker.TaskOk(s.tracker, s.tracker.tasks[work.task], s.granted); }
  }

  lemma TrackerFrame(s: State, work: Tracker.Step, settled: bool)
    requires TrackerEnabled(s, work, settled)
    ensures var u := TrackerNext(s, work, settled); u == s.(tracker := Tracker.Next(s.tracker, work), queue := u.queue)
  {
  }

  lemma TrackerKeepsProgress(s: State, work: Tracker.Step, settled: bool)
    requires Tracker.OptedIn(s.tracker, s.granted) && Progressing(s) && TrackerEnabled(s, work, settled)
    ensures Progressing(TrackerNext(s, work, settled))
  {
    TrackerTakesOnlyEvents(s, work, settled);
    TrackerFrame(s, work, settled);
    StillProgressing(s, TrackerNext(s, work, settled));
  }

  lemma StillProgressing(s: State, u: State)
    requires Progressing(s) && u == s.(tracker := u.tracker, queue := u.queue)
    requires forall m :: m in s.queue && (m.Confirmation? || m.Result?) ==> m in u.queue
    ensures Progressing(u)
  {
    assert forall c: Command :: Covered(s, c) ==> Covered(u, c);
    assert forall c: Command :: Answering(s, c) ==> Answering(u, c);
    ProgressFrom(s, u);
  }

  // ----- tags, opt-in and replay -----

  lemma TagsFrame(s: State, call: Call)
    requires CallEnabled(s, call) && !call.RegisterRepository? && !call.UpdateTag? && !call.Respond?
    ensures CallNext(s, call).tables.repositories == s.tables.repositories && CallNext(s, call).tracker == s.tracker
  {
    if IsCommit(call) { CommitFrame(s, call); }
  }

  lemma StoredTagsKept(s: State, call: Call)
    requires Tags(s) && CallEnabled(s, call) && (call.RegisterRepository? || call.UpdateTag?)
    requires call.RegisterRepository? ==> RequestOk(s, s.requests[call.request])
    ensures Tags(CallNext(s, call))
  {
  }

  lemma CallKeepsTags(s: State, call: Call)
    requires Tags(s) && References(s) && Tracker.OptedIn(s.tracker, s.granted) && CallEnabled(s, call)
    ensures Tags(CallNext(s, call))
  {
    if call.RegisterRepository? || call.UpdateTag? {
      if call.RegisterRepository? { assert RequestOk(s, s.requests[call.request]); }
      StoredTagsKept(s, call);
    } else if call.Respond? {
      Tracker.StepKeepsTags(s.tracker, Tracker.Stop(call.task), s.granted);
    } else {
      TagsFrame(s, call);
    }
  }

  lemma TrackerKeepsTags(s: State, work: Tracker.Step, settled: bool)
    requires Tags(s) && Tracker.OptedIn(s.tracker, s.granted) && TrackerEnabled(s, work, settled)
    ensures Tags(TrackerNext(s, work, settled))
  {
    Tracker.StepKeepsTags(s.tracker, work, s.granted);
  }

  lemma OptInFrame(s: State, call: Call)
    requires CallEnabled(s, call) && !call.Respond? && !call.Confirm?
    ensures CallNext(s, call).tracker == s.tracker && CallNext(s, call).granted == s.granted
  {
    if IsCommit(call) { CommitFrame(s, call); }
  }

  lemma CallKeepsOptIn(s: State, call: Call)
    requires Tracker.OptedIn(s.tracker, s.granted) && CallEnabled(s, call)
    ensures Tracker.OptedIn(CallNext(s, call).tracker, CallNext(s, call).granted)
  {
    if call.Respond? {
      Tracker.StepKeepsOptIn(s.tracker, Tracker.Stop(call.task), s.granted);
    } else if call.Confirm? {
      Tracker.MoreGrants(s.tracker, s.granted, CallNext(s, call).granted);
    } else {
      OptInFrame(s, call);
    }
  }

  lemma TrackerKeepsOptIn(s: State, work: Tracker.Step, settled: bool)
    requires References(s) && Tracker.OptedIn(s.tracker, s.granted) && TrackerEnabled(s, work, settled)
    ensures Tracker.OptedIn(TrackerNext(s, work, settled).tracker, s.granted)
  {
    if work.Receive? { assert MessageOk(s, work.event); }
    Tracker.StepKeepsOptIn(s.tracker, work, s.granted);
  }

  lemma ReplayOneMore(log: seq<Outbox.Entry>, e: Outbox.Entry)
    ensures ApplyAll(map[], Messages(log + [e])) == Apply(ApplyAll(map[], Messages(log)), e.message)
  {
    assert Messages(log + [e]) == Messages(log) + [e.message];
    ApplyOneMore(map[], Messages(log), e.message);
  }

  /** A new event settles the row it names and leaves the others as they are. */
  lemma NewRowKeepsReplay(s: State, u: State, rowId: nat, m: Message)
    requires ReplayIsExact(s) && u.outbox.insertLog == s.outbox.insertLog + [Outbox.Entry(rowId, m)]
    requires forall key :: IsConfirmed(u, key) ==>
      if m.Activated? && m.key == key then m.token == u.tables.subscriptions[key].token && key !in u.emptied
      else if m.Unsubscribed? && m.key == key then key in u.emptied
      else IsConfirmed(s, key) && s.tables.subscriptions[key] == u.tables.subscriptions[key]
           && (key in s.emptied <==> key in u.emptied)
    ensures ReplayIsExact(u)
  {
    ReplayOneMore(s.outbox.insertLog, Outbox.Entry(rowId, m));
  }

  lemma QuietCallKeepsReplay(s: State, call: Call)
    requires ReplayIsExact(s) && CallEnabled(s, call) && !IsCommit(call)
    ensures ReplayIsExact(CallNext(s, call))
  {
    QuietFrame(s, call);
    assert forall key :: IsConfirmed(CallNext(s, call), key) <==> IsConfirmed(s, key);
  }

  lemma CommitKeepsReplay(s: State, call: Call)
    requires ReplayIsExact(s) && CallEnabled(s, call) && IsCommit(call)
    ensures ReplayIsExact(CallNext(s, call))
  {
    var m := Written(s, call);
    CommitFrame(s, call);
    CommittedRows(s, call, m);
    NewRowKeepsReplay(s, CallNext(s, call), call.rowId, m);
  }

  /** What a commit does to the confirmed rows is what its event says. */
  lemma CommittedRows(s: State, call: Call, m: Message)
    requires CallEnabled(s, call) && IsCommit(call)
    requires m == Written(s, call)
    ensures
      var u := CallNext(s, call);
      forall key :: IsConfirmed(u, key) ==>
        if m.Activated? && m.key == key then m.token == u.tables.subscriptions[key].token && key !in u.emptied
        else if m.Unsubscribed? && m.key == key then key in u.emptied
        else IsConfirmed(s, key) && s.tables.subscriptions[key] == u.tables.subscriptions[key]
             && (key in s.emptied <==> key in u.emptied)
  {
  }

  lemma CallKeepsReplay(s: State, call: Call)
    requires ReplayIsExact(s) && CallEnabled(s, call)
    ensures ReplayIsExact(CallNext(s, call))
  {
    if IsCommit(call) { CommitKeepsReplay(s, call); } else { QuietCallKeepsReplay(s, call); }
  }

  lemma ReplyKeepsReplay(s: State, move: ReplyMove)
    requires ReplayIsExact(s) && ReplyEnabled(s, move)
    ensures ReplayIsExact(ReplyNext(s, move))
  {
    var u := ReplyNext(s, move);
    forall key | IsConfirmed(u, key)
      ensures IsConfirmed(s, key) && u.tables.subscriptions[key] == s.tables.subscriptions[key]
      ensures u.emptied == s.emptied
    {
    }
  }

  // ----- open transactions -----

  lemma RepliedIdIsUsed(s: State, d: nat)
    requires References(s) && Sagas(s) && d in s.replies
    ensures s.replies[d].reply.subscriptionId in s.usedIds
  {
    assert DeliveryOk(s, s.replies[d]);
    var id := s.replies[d].reply.sagaId;
    assert SagaOk(s, id, s.tables.sagas[id]);
  }

  ghost predicate RepliedUsed(s: State) {
    forall d :: d in s.replies ==> s.replies[d].reply.subscriptionId in s.usedIds
  }

  lemma RepliedAreUsed(s: State)
    requires References(s) && Sagas(s)
    ensures RepliedUsed(s)
  {
    forall d | d in s.replies ensures s.replies[d].reply.subscriptionId in s.usedIds { RepliedIdIsUsed(s, d); }
  }

  /** A request starts its transaction with an upsert that got hold of the row. */
  lemma UpsertKeepsLocking(s: State, r: nat, c: Request, freshId: nat, u: State)
    requires RepliedUsed(s) && RowIdsUsed(s) && Locking(s) && Saving(c) && !Held(s, c.key)
    requires freshId !in s.drawnIds && c.id == SavedId(s.tables, c.key, freshId)
    requires r in s.requests ==> s.requests[r].Confirming?
    requires u == s.(requests := s.requests[r := c], drawnIds := s.drawnIds + {freshId})
    ensures Locking(u)
  {
    forall d | d in u.replies ensures !DeletesId(u.replies[d], c.id) { }
    forall q | q in u.requests ensures SaveOk(u, u.requests[q]) {
      if q != r { assert SaveOk(s, s.requests[q]); }
    }
    forall d | d in u.replies && u.replies[d].phase == Deleting(false)
      ensures !HasRow(u.tables, u.replies[d].reply.subscriptionId)
    {
      NoNewRows(s, u, u.replies[d].reply.subscriptionId);
    }
  }

  /** The two upserts commit. */
  lemma SaveCommitKeepsLocking(s: State, r: nat, confirmed: bool, u: State)
    requires RepliedUsed(s) && RowIdsUsed(s) && Locking(s) && r in s.requests && Saving(s.requests[r])
    requires u.requests == s.requests - {r} && u.replies == s.replies && u.drawnIds == s.drawnIds
    requires
      var c := s.requests[r];
      && u.tables.subscriptions == Put(s.tables, c.key, c.id, c.token, confirmed).subscriptions
      && u.usedIds == s.usedIds + {c.id}
    ensures Locking(u)
  {
    var c := s.requests[r];
    assert SaveOk(s, c) && Changed(c, c.key);
    forall q | q in u.requests
      ensures SaveOk(u, u.requests[q]) && (Inserts(u, u.requests[q]) ==> Inserts(s, s.requests[q]))
    {
      assert SaveOk(s, s.requests[q]);
      if Saving(s.requests[q]) { assert Changed(s.requests[q], s.requests[q].key); }
    }
    forall d | d in u.replies && u.replies[d].phase == Deleting(false)
      ensures !HasRow(u.tables, u.replies[d].reply.subscriptionId)
    {
      RowsAfterSave(s, c, confirmed, u.replies[d].reply.subscriptionId, u);
    }
  }

  /** Whatever else happens: no new upsert and no new row, and the rows of open upserts stay. */
  lemma OthersKeepLocking(s: State, u: State)
    requires Locking(s) && u.usedIds == s.usedIds && u.drawnIds == s.drawnIds
    requires forall k :: k in u.tables.subscriptions ==>
      k in s.tables.subscriptions && u.tables.subscriptions[k] == s.tables.subscriptions[k]
    requires forall r :: r in u.requests && Saving(u.requests[r]) ==>
      && r in s.requests && s.requests[r] == u.requests[r]
      && (u.requests[r].key in s.tables.subscriptions ==> u.requests[r].key in u.tables.subscriptions)
    requires Exclusive(u)
    requires forall d :: d in u.replies && u.replies[d].phase == Deleting(false) ==>
      !HasRow(s.tables, u.replies[d].reply.subscriptionId)
    ensures Locking(u)
  {
    forall r | r in u.requests ensures SaveOk(u, u.requests[r]) {
      if Saving(u.requests[r]) { assert SaveOk(s, s.requests[r]); }
    }
    forall d | d in u.replies && u.replies[d].phase == Deleting(false)
      ensures !HasRow(u.tables, u.replies[d].reply.subscriptionId)
    {
      NoNewRows(s, u, u.replies[d].reply.subscriptionId);
    }
  }

  predicate Holding(r: Request) {
    Saving(r) || (r.Removing? && r.found)
  }

  lemma SameRowsKeepLocking(s: State, u: State)
    requires Locking(s) && u.usedIds == s.usedIds && u.drawnIds == s.drawnIds
    requires u.tables.subscriptions == s.tables.subscriptions
    requires forall r :: r in u.requests && Holding(u.requests[r]) ==> r in s.requests && s.requests[r] == u.requests[r]
    requires forall d :: d in u.replies && u.replies[d].phase.Deleting? ==>
      d in s.replies && s.replies[d] == u.replies[d]
    ensures Locking(u)
  {
    OthersKeepLocking(s, u);
  }

  predicate Locks(call: Call) {
    call.Subscribe? || call.ConfirmSave? || call.Remove?
  }

  lemma NoneHolds(s: State, call: Call)
    requires CallEnabled(s, call) && !Locks(call) && !IsCommit(call)
    ensures
      var u := CallNext(s, call);
      && u.drawnIds == s.drawnIds
      && forall r :: r in u.requests && Holding(u.requests[r]) ==> r in s.requests && s.requests[r] == u.requests[r]
  {
  }

  lemma QuietCallKeepsLocking(s: State, call: Call)
    requires Locking(s) && CallEnabled(s, call) && !Locks(call) && !IsCommit(call)
    ensures Locking(CallNext(s, call))
  {
    NoneHolds(s, call);
    QuietFrame(s, call);
    CallFrame(s, call);
    SameRowsKeepLocking(s, CallNext(s, call));
  }

  lemma RemovedExclusive(s: State, r: nat, key: Key, found: bool, u: State)
    requires Exclusive(s) && u == s.(requests := s.requests[r := Removing(key, found)])
    requires found ==> forall q :: q in s.requests ==> !Changed(s.requests[q], key)
    ensures Exclusive(u)
  {
  }

  lemma RemoveKeepsExclusive(s: State, r: nat)
    requires Exclusive(s) && CallEnabled(s, Remove(r))
    ensures Exclusive(CallNext(s, Remove(r)))
  {
    var key := s.requests[r].key;
    var found := key in s.tables.subscriptions;
    if found {
      forall q | q in s.requests ensures !Changed(s.requests[q], key) { assert !HeldByRequest(s, key); }
    }
    RemovedExclusive(s, r, key, found, CallNext(s, Remove(r)));
  }

  lemma RemoveKeepsLocking(s: State, r: nat)
    requires Locking(s) && CallEnabled(s, Remove(r))
    ensures Locking(CallNext(s, Remove(r)))
  {
    RemoveKeepsExclusive(s, r);
    OthersKeepLocking(s, CallNext(s, Remove(r)));
  }

  lemma UpsertOutlivesRemoval(s: State, r: nat, rowId: nat, q: nat)
    requires Exclusive(s) && CallEnabled(s, RemoveCommit(r, rowId)) && q in s.requests && Saving(s.requests[q])
    ensures s.requests[r].found ==> s.requests[q].key != s.requests[r].key
  {
    assert Changed(s.requests[q], s.requests[q].key);
    assert s.requests[r].found ==> Changed(s.requests[r], s.requests[r].key);
  }

  lemma RemoveCommitKeepsExclusive(s: State, r: nat, rowId: nat)
    requires Exclusive(s) && CallEnabled(s, RemoveCommit(r, rowId))
    ensures Exclusive(CallNext(s, RemoveCommit(r, rowId)))
  {
    forall q | q in s.requests && Saving(s.requests[q])
      ensures s.requests[r].found ==> s.requests[q].key != s.requests[r].key
    {
      UpsertOutlivesRemoval(s, r, rowId, q);
    }
  }

  lemma RemoveCommitKeepsLocking(s: State, r: nat, rowId: nat)
    requires Locking(s) && CallEnabled(s, RemoveCommit(r, rowId))
    ensures Locking(CallNext(s, RemoveCommit(r, rowId)))
  {
    forall q | q in s.requests && Saving(s.requests[q])
      ensures s.requests[r].found ==> s.requests[q].key != s.requests[r].key
    {
      UpsertOutlivesRemoval(s, r, rowId, q);
    }
    RemoveCommitKeepsExclusive(s, r, rowId);
    OthersKeepLocking(s, CallNext(s, RemoveCommit(r, rowId)));
  }

  lemma SaveKeepsLocking(s: State, call: Call)
    requires RepliedUsed(s) && RowIdsUsed(s) && Locking(s) && CallEnabled(s, call)
    requires call.Subscribe? || call.ConfirmSave?
    ensures Locking(CallNext(s, call))
  {
    var u := CallNext(s, call);
    UpsertKeepsLocking(s, call.request, u.requests[call.request], call.freshId, u);
  }

  lemma CommitKeepsLocking(s: State, call: Call)
    requires RepliedUsed(s) && RowIdsUsed(s) && Locking(s) && CallEnabled(s, call)
    requires call.SubscribeCommit? || call.ConfirmCommit?
    ensures Locking(CallNext(s, call))
  {
    SaveCommitKeepsLocking(s, call.request, call.ConfirmCommit?, CallNext(s, call));
  }

  lemma CallKeepsLocking(s: State, call: Call)
    requires RepliedUsed(s) && RowIdsUsed(s) && Locking(s) && CallEnabled(s, call)
    ensures Locking(CallNext(s, call))
  {
    hide Locking, RepliedUsed, RowIdsUsed;
    match call
    case Subscribe(_, _, _, _) => SaveKeepsLocking(s, call);
    case ConfirmSave(_, _) => SaveKeepsLocking(s, call);
    case SubscribeCommit(_, _, _) => CommitKeepsLocking(s, call);
    case ConfirmCommit(_, _) => CommitKeepsLocking(s, call);
    case Remove(r) => RemoveKeepsLocking(s, r);
    case RemoveCommit(r, rowId) => RemoveCommitKeepsLocking(s, r, rowId);
    case _ => QuietCallKeepsLocking(s, call);
  }

  lemma NoUpsertOfDeleted(s: State, d: nat, r: nat)
    requires RepliedUsed(s) && Locking(s) && ReplyEnabled(s, DeleteRow(d))
    requires r in s.requests && Saving(s.requests[r])
    ensures s.requests[r].id != s.replies[d].reply.subscriptionId
  {
    assert SaveOk(s, s.requests[r]) && Changed(s.requests[r], s.requests[r].key);
  }

  lemma DeleteRowKeepsLocking(s: State, d: nat)
    requires RepliedUsed(s) && Locking(s) && ReplyEnabled(s, DeleteRow(d))
    ensures Locking(ReplyNext(s, DeleteRow(d)))
  {
    forall r | r in s.requests && Saving(s.requests[r]) ensures s.requests[r].id != s.replies[d].reply.subscriptionId {
      NoUpsertOfDeleted(s, d, r);
    }
    OthersKeepLocking(s, ReplyNext(s, DeleteRow(d)));
  }

  lemma UpsertOutlivesUndo(s: State, d: nat, r: nat)
    requires Locking(s) && ReplyEnabled(s, Undo(d)) && r in s.requests && Saving(s.requests[r])
    ensures s.requests[r].key in s.tables.subscriptions ==>
      s.requests[r].key in ReplyNext(s, Undo(d)).tables.subscriptions
  {
    var id := s.replies[d].reply.subscriptionId;
    assert SaveOk(s, s.requests[r]) && (s.replies[d].phase.found ==> DeletesId(s.replies[d], id));
  }

  lemma UndoKeepsLocking(s: State, d: nat)
    requires Locking(s) && ReplyEnabled(s, Undo(d))
    ensures Locking(ReplyNext(s, Undo(d)))
  {
    var u := ReplyNext(s, Undo(d));
    forall r | r in s.requests && Saving(s.requests[r]) && s.requests[r].key in s.tables.subscriptions
      ensures s.requests[r].key in u.tables.subscriptions
    {
      UpsertOutlivesUndo(s, d, r);
    }
    OthersKeepLocking(s, u);
  }

  lemma QuietReplyKeepsLocking(s: State, move: ReplyMove)
    requires Locking(s) && ReplyEnabled(s, move) && !move.DeleteRow? && !move.Undo?
    ensures Locking(ReplyNext(s, move))
  {
    SameRowsKeepLocking(s, ReplyNext(s, move));
  }

  lemma ReplyKeepsLocking(s: State, move: ReplyMove)
    requires RepliedUsed(s) && Locking(s) && ReplyEnabled(s, move)
    ensures Locking(ReplyNext(s, move))
  {
    match move
    case DeleteRow(d) => DeleteRowKeepsLocking(s, d);
    case Undo(d) => UndoKeepsLocking(s, d);
    case _ => QuietReplyKeepsLocking(s, move);
  }

  // ----- all of it -----

  lemma CallKeeps(s: State, call: Call)
    requires Inv(s) && CallEnabled(s, call)
    ensures Inv(CallNext(s, call))
  {
    CallKeepsOutbox(s, call);
    CallKeepsReferences(s, call);
    CallKeepsSagas(s, call);
    RepliedAreUsed(s);
    CallKeepsLocking(s, call);
    CallFrame(s, call);
    CallKeepsProgress(s, call);
    CallKeepsTags(s, call);
    CallKeepsOptIn(s, call);
    CallKeepsReplay(s, call);
  }

  lemma ReplyFrame(s: State, move: ReplyMove)
    requires ReplyEnabled(s, move)
    ensures
      var u := ReplyNext(s, move);
      u == s.(tables := u.tables, replies := u.replies, queue := u.queue)
      && u.tables.repositories == s.tables.repositories
  {
  }

  lemma ReplyKeeps(s: State, move: ReplyMove)
    requires Inv(s) && ReplyEnabled(s, move)
    ensures Inv(ReplyNext(s, move))
  {
    ReplyFrame(s, move);
    ReplyKeepsReferences(s, move);
    ReplyKeepsSagas(s, move);
    RepliedAreUsed(s);
    ReplyKeepsLocking(s, move);
    ReplyKeepsProgress(s, move);
    ReplyKeepsReplay(s, move);
  }

  /** The notification service, the relays and the tracker leave the subscription service's own state alone. */
  ghost predicate SameService(s: State, u: State) {
    && u.tables == s.tables && u.requests == s.requests && u.replies == s.replies && u.commands == s.commands
    && u.drawnIds == s.drawnIds && u.usedIds == s.usedIds && u.emptied == s.emptied && u.granted == s.granted
    && u.outbox.insertLog == s.outbox.insertLog
  }

  lemma ServiceKept(s: State, u: State)
    requires References(s) && Sagas(s) && Locking(s) && ReplayIsExact(s) && Extends(s, u) && SameService(s, u)
    ensures Sagas(u) && Locking(u) && ReplayIsExact(u)
  {
    SameSagas(s, u);
    SameRowsKeepLocking(s, u);
    assert forall key :: IsConfirmed(u, key) <==> IsConfirmed(s, key);
  }

  lemma MailKeeps(s: State, move: MailMove)
    requires Inv(s) && MailEnabled(s, move)
    ensures Inv(MailNext(s, move))
  {
    MailFrame(s, move);
    MailExtends(s, move);
    MailKeepsReferences(s, move);
    MailKeepsProgress(s, move);
    ServiceKept(s, MailNext(s, move));
  }

  lemma RelayFrame(s: State, o: Outbox.Step)
    requires Enabled(s, RelayStep(o))
    ensures
      var u := Next(s, RelayStep(o));
      && u == s.(outbox := Outbox.Next(s.outbox, o), queue := s.queue + Outbox.Published(s.outbox, o))
      && u.outbox.insertLog == s.outbox.insertLog
  {
  }

  lemma RelayKeeps(s: State, o: Outbox.Step)
    requires Inv(s) && Enabled(s, RelayStep(o))
    ensures Inv(Next(s, RelayStep(o)))
  {
    hide References, Progressing;
    RelayFrame(s, o);
    RelayKeepsReferences(s, o);
    RelayKeepsProgress(s, o);
    ServiceKept(s, Next(s, RelayStep(o)));
    Outbox.StepKeeps(s.outbox, o);
  }

  lemma TrackerKeeps(s: State, work: Tracker.Step, settled: bool)
    requires Inv(s) && TrackerEnabled(s, work, settled)
    ensures Inv(TrackerNext(s, work, settled))
  {
    TrackerExtends(s, work, settled);
    TrackerKeepsOutbox(s.tracker, work);
    TrackerKeepsReferences(s, work, settled);
    TrackerKeepsProgress(s, work, settled);
    TrackerKeepsTags(s, work, settled);
    TrackerKeepsOptIn(s, work, settled);
    ServiceKept(s, TrackerNext(s, work, settled));
  }

  lemma StepKeeps(s: State, step: Step)
    requires Inv(s) && Enabled(s, step)
    ensures Inv(Next(s, step))
  {
    hide Inv;
    match step
    case Api(call) => CallKeeps(s, call);
    case Orchestrate(move) => ReplyKeeps(s, move);
    case Notify(move) => MailKeeps(s, move);
    case RelayStep(o) => RelayKeeps(s, o);
    case TrackerStep(work, settled) => TrackerKeeps(s, work, settled);
  }

  lemma {:induction false} RunKeeps(s: State, steps: seq<Step>, u: State)
    requires Inv(s) && Run(s, steps, u)
    ensures Inv(u)
    decreases |steps|
  {
    hide Inv, Enabled, Next;
    if steps != [] {
      StepKeeps(s, steps[0]);
      RunKeeps(Next(s, steps[0]), steps[1..], u);
    }
  }

  lemma InitialTracker()
    ensures Outbox.Inv(INITIAL.tracker.outbox) && Tracker.OptedIn(INITIAL.tracker, {}) && Tags(INITIAL)
  {
  }

  lemma InitialService()
    ensures References(INITIAL) && Sagas(INITIAL) && Locking(INITIAL) && Progressing(INITIAL) && ReplayIsExact(INITIAL)
  {
  }

  lemma InitialInv()
    ensures Inv(INITIAL)
  {
    InitialTracker();
    InitialService();
  }

  lemma InvHolds(s: State)
    requires Reachable(s)
    ensures Inv(s)
  {
    var steps :| Run(INITIAL, steps, s);
    InitialInv();
    RunKeeps(INITIAL, steps, s);
  }
}
