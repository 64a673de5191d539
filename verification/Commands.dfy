/** Where confirmation commands come from: what a command says is what somebody subscribed with. */
module Commands {
  import opened Contracts
  import Outbox
  import opened SubscriptionTables
  import Tracker
  import opened System
  import opened SystemInvariant
  import opened Guarantees

  // ----- everything sent was written -----

  /** The command is on its way, being handled, or SMTP has had its mail. */
  ghost predicate Sent(s: State, c: Command) {
    || InOutbox(s, Confirmation(c)) || Confirmation(c) in s.queue
    || (exists d :: d in s.mail && s.mail[d].command == c)
    || c in s.accepted || c in s.refused
  }

  lemma TravellingIsGenuine(s: State, c: Command)
    requires Inv(s)
    requires
      || InOutbox(s, Confirmation(c)) || Confirmation(c) in s.queue
      || exists d :: d in s.mail && s.mail[d].command == c
    ensures Genuine(s, c)
  {
    if InOutbox(s, Confirmation(c)) {
      var id :| id in s.outbox.table && s.outbox.table[id].message == Confirmation(c);
      assert EntryOk(s, Outbox.Entry(id, Confirmation(c)));
    } else if Confirmation(c) in s.queue {
      assert MessageOk(s, Confirmation(c));
    } else {
      var d :| d in s.mail && s.mail[d].command == c;
      assert MailOk(s, s.mail[d]);
    }
  }

  lemma MailedIsGenuine(steps: seq<Step>, s: State, c: Command, success: bool)
    requires Run(INITIAL, steps, s) && if success then c in s.accepted else c in s.refused
    ensures Genuine(s, c)
  {
    hide Run, Enabled, Next;
    var i, t := MailHistory(INITIAL, steps, s, c, success);
    assert Reachable(t);
    InvHolds(t);
    TravellingIsGenuine(t, c);
    RunSplit(INITIAL, steps, s, i, t);
    CommandsStay(t, steps[i..], s, c.sagaId);
  }

  lemma SentIsGenuine(steps: seq<Step>, s: State, c: Command)
    requires Run(INITIAL, steps, s) && Sent(s, c)
    ensures Genuine(s, c)
  {
    hide Run, Enabled, Next, Inv, Genuine;
    assert Reachable(s);
    InvHolds(s);
    if c in s.accepted {
      MailedIsGenuine(steps, s, c, true);
    } else if c in s.refused {
      MailedIsGenuine(steps, s, c, false);
    } else {
      TravellingIsGenuine(s, c);
    }
  }

  // ----- everything written was asked for -----

  /** The commit that writes the command, for the row its transaction has just upserted. */
  ghost predicate Writes(v: State, step: Step, c: Command) {
    && step.Api? && step.call.SubscribeCommit? && step.call.sagaId == c.sagaId && step.call.request in v.requests
    && var r := v.requests[step.call.request];
       && r.Subscribing? && r.id == c.subscriptionId
       && r.key.email == c.email && r.key.repo == c.repo && r.token == c.token
  }

  lemma WritesNow(s: State, step: Step, id: nat)
    requires Enabled(s, step) && id in Next(s, step).commands && id !in s.commands
    ensures Writes(s, step, Next(s, step).commands[id])
  {
    match step
    case Api(call) => if !IsCommit(call) { QuietFrame(s, call); }
    case Orchestrate(move) => ReplyFrame(s, move);
    case Notify(move) => MailFrame(s, move);
    case TrackerStep(_, _) =>
    case RelayStep(_) =>
  }

  lemma {:induction false} WrittenBy(s: State, steps: seq<Step>, u: State, id: nat) returns (j: nat, v: State)
    requires Run(s, steps, u) && id in u.commands && id !in s.commands
    ensures Earlier(s, steps, j, v) && Writes(v, steps[j], u.commands[id])
    decreases |steps|
  {
    var next := Next(s, steps[0]);
    hide Enabled, Next, Writes;
    if id in next.commands {
      WritesNow(s, steps[0], id);
      CommandsStay(next, steps[1..], u, id);
      j, v := 0, s;
      assert steps[..0] == [];
    } else {
      j, v := WrittenBy(next, steps[1..], u, id);
      EarlierInRest(s, steps, j, v);
      j := j + 1;
    }
  }

  /** Somebody subscribes with exactly this e-mail, repository and token. */
  predicate Subscribes(step: Step, request: nat, email: Email, repo: Name, token: Token) {
    && step.Api? && step.call.Subscribe? && step.call.request == request
    && step.call.key.email == email && step.call.key.repo == repo && step.call.token == token
  }

  ghost predicate Asking(s: State, r: nat, key: Key, token: Token) {
    r in s.requests && s.requests[r].Subscribing? && s.requests[r].key == key && s.requests[r].token == token
  }

  lemma AsksNow(s: State, step: Step, r: nat, key: Key, token: Token)
    requires Enabled(s, step) && Asking(Next(s, step), r, key, token) && !Asking(s, r, key, token)
    ensures Subscribes(step, r, key.email, key.repo, token)
  {
    match step
    case Api(call) => if IsCommit(call) { CommitFrame(s, call); }
    case Orchestrate(move) => ReplyFrame(s, move);
    case Notify(move) => MailFrame(s, move);
    case TrackerStep(_, _) =>
    case RelayStep(_) =>
  }

  lemma {:induction false} AskedBy(s: State, steps: seq<Step>, u: State, r: nat, key: Key, token: Token)
      returns (i: nat, t: State)
    requires Run(s, steps, u) && Asking(u, r, key, token) && !Asking(s, r, key, token)
    ensures Earlier(s, steps, i, t) && Subscribes(steps[i], r, key.email, key.repo, token)
    decreases |steps|
  {
    var next := Next(s, steps[0]);
    hide Enabled, Next, Asking;
    if Asking(next, r, key, token) {
      AsksNow(s, steps[0], r, key, token);
      i, t := 0, s;
      assert steps[..0] == [];
    } else {
      i, t := AskedBy(next, steps[1..], u, r, key, token);
      EarlierInRest(s, steps, i, t);
      i := i + 1;
    }
  }

  /** The row of the command's subscription, as its transaction stores it. */
  ghost predicate RowStands(s: State, c: Command) {
    exists key :: key in s.tables.subscriptions && key.email == c.email && key.repo == c.repo
      && s.tables.subscriptions[key] == Subscription(c.subscriptionId, c.token, false)
  }

  lemma WritesRow(v: State, step: Step, c: Command)
    requires Enabled(v, step) && Writes(v, step, c)
    ensures RowStands(Next(v, step), c)
  {
    var key := v.requests[step.call.request].key;
    assert key in Next(v, step).tables.subscriptions;
  }

  /** Behind every command in the outbox or the queue, every delivery of one and every mail SMTP accepted or refused
      there is an earlier Subscribe of exactly its e-mail and repository with exactly its token, and the commit of its
      transaction stored the row with the command's subscription id under exactly that e-mail and repository. */
  lemma CommandsComeFromSubscribe(steps: seq<Step>, s: State, c: Command)
      returns (i: nat, t: State, j: nat, v: State, r: nat)
    requires Run(INITIAL, steps, s) && Sent(s, c)
    ensures Earlier(INITIAL, steps, i, t) && Subscribes(steps[i], r, c.email, c.repo, c.token)
    ensures i < j && Earlier(INITIAL, steps, j, v) && Writes(v, steps[j], c) && steps[j].call.request == r
    ensures RowStands(Next(v, steps[j]), c)
  {
    SentIsGenuine(steps, s, c);
    hide Run, Enabled, Next, Sent;
    j, v := WrittenBy(INITIAL, steps, s, c.sagaId);
    r := steps[j].call.request;
    i, t := AskedBy(INITIAL, steps[..j], v, r, v.requests[r].key, c.token);
    EarlierInPrefix(INITIAL, steps, j, i, t);
    WritesRow(v, steps[j], c);
  }

  // ----- one key for every subscription id -----

  /** The id belongs to this key: by a row, by an upsert that has not committed, or by a command. */
  ghost predicate Owns(s: State, id: nat, key: Key) {
    || (key in s.tables.subscriptions && s.tables.subscriptions[key].id == id)
    || (exists r :: r in s.requests && Saving(s.requests[r]) && s.requests[r].id == id && s.requests[r].key == key)
    || (exists c :: Genuine(s, c) && c.subscriptionId == id && c.email == key.email && c.repo == key.repo)
  }

  ghost predicate OneOwner(s: State) {
    forall id, k, l :: Owns(s, id, k) && Owns(s, id, l) ==> k == l
  }

  lemma OwnedIdsAreDrawn(s: State, id: nat, key: Key)
    requires Inv(s) && Owns(s, id, key)
    ensures id in s.drawnIds
  {
    if r :| r in s.requests && Saving(s.requests[r]) && s.requests[r].id == id && s.requests[r].key == key {
      assert SaveOk(s, s.requests[r]);
    } else if c :| Genuine(s, c) && c.subscriptionId == id && c.email == key.email && c.repo == key.repo {
      assert c.sagaId in s.tables.sagas && SagaOk(s, c.sagaId, s.tables.sagas[c.sagaId]);
    }
  }

  /** The upsert draws the id for a new row of this key. */
  ghost predicate Draws(s: State, call: Call, id: nat, key: Key) {
    && id !in s.drawnIds
    && ((call.Subscribe? && call.freshId == id && call.key == key)
        || (call.ConfirmSave? && call.freshId == id && call.request in s.requests
            && s.requests[call.request].Confirming? && s.requests[call.request].key == key))
  }

  lemma QuietCallOwns(s: State, call: Call, id: nat, key: Key)
    requires CallEnabled(s, call) && !IsCommit(call) && Owns(CallNext(s, call), id, key)
    ensures Owns(s, id, key) || Draws(s, call, id, key)
  {
    var u := CallNext(s, call);
    QuietFrame(s, call);
    if r :| r in u.requests && Saving(u.requests[r]) && u.requests[r].id == id && u.requests[r].key == key {
      if !(r in s.requests && s.requests[r] == u.requests[r]) {
        assert id == SavedId(s.tables, key, call.freshId);
      }
    } else if c :| Genuine(u, c) && c.subscriptionId == id && c.email == key.email && c.repo == key.repo {
      assert Genuine(s, c);
    }
  }

  lemma CommitOwns(s: State, call: Call, id: nat, key: Key)
    requires CallEnabled(s, call) && IsCommit(call) && Owns(CallNext(s, call), id, key)
    ensures Owns(s, id, key)
  {
    var u := CallNext(s, call);
    CommitFrame(s, call);
    if r :| r in u.requests && Saving(u.requests[r]) && u.requests[r].id == id && u.requests[r].key == key {
      assert r in s.requests && s.requests[r] == u.requests[r];
    } else if c :| Genuine(u, c) && c.subscriptionId == id && c.email == key.email && c.repo == key.repo {
      CommittedCommand(s, call, c, key);
    } else {
      CommittedRow(s, call, id, key);
    }
  }

  lemma CommittedCommand(s: State, call: Call, c: Command, key: Key)
    requires CallEnabled(s, call) && IsCommit(call) && Genuine(CallNext(s, call), c)
    requires c.email == key.email && c.repo == key.repo
    ensures Owns(s, c.subscriptionId, key)
  {
    if !Genuine(s, c) {
      assert call.SubscribeCommit? && call.sagaId == c.sagaId;
      assert Saving(s.requests[call.request]) && s.requests[call.request].key == key;
    }
  }

  lemma CommittedRow(s: State, call: Call, id: nat, key: Key)
    requires CallEnabled(s, call) && IsCommit(call)
    requires var rows := CallNext(s, call).tables.subscriptions; key in rows && rows[key].id == id
    ensures Owns(s, id, key)
  {
    if !(key in s.tables.subscriptions && s.tables.subscriptions[key].id == id) {
      assert Saving(s.requests[call.request]) && s.requests[call.request].key == key;
    }
  }

  lemma ReplyOwns(s: State, move: ReplyMove, id: nat, key: Key)
    requires ReplyEnabled(s, move) && Owns(ReplyNext(s, move), id, key)
    ensures Owns(s, id, key)
  {
    var u := ReplyNext(s, move);
    ReplyFrame(s, move);
    if c :| Genuine(u, c) && c.subscriptionId == id && c.email == key.email && c.repo == key.repo {
      assert Genuine(s, c);
    }
  }

  lemma SameOwns(s: State, u: State, id: nat, key: Key)
    requires u.tables == s.tables && u.requests == s.requests && u.commands == s.commands && Owns(u, id, key)
    ensures Owns(s, id, key)
  {
    if c :| Genuine(u, c) && c.subscriptionId == id && c.email == key.email && c.repo == key.repo {
      assert Genuine(s, c);
    }
  }

  lemma StepOwns(s: State, step: Step, id: nat, key: Key)
    requires Enabled(s, step) && Owns(Next(s, step), id, key)
    ensures Owns(s, id, key) || (step.Api? && Draws(s, step.call, id, key))
  {
    hide Owns, Draws;
    match step
    case Api(call) => if IsCommit(call) { CommitOwns(s, call, id, key); } else { QuietCallOwns(s, call, id, key); }
    case Orchestrate(move) => ReplyOwns(s, move, id, key);
    case Notify(move) =>
      MailFrame(s, move);
      SameOwns(s, MailNext(s, move), id, key);
    case TrackerStep(_, _) => SameOwns(s, Next(s, step), id, key);
    case RelayStep(_) => SameOwns(s, Next(s, step), id, key);
  }

  lemma StepKeepsOwners(s: State, step: Step)
    requires Inv(s) && OneOwner(s) && Enabled(s, step)
    ensures OneOwner(Next(s, step))
  {
    hide Inv, Owns, Enabled, Next;
    var u := Next(s, step);
    forall id, k, l | Owns(u, id, k) && Owns(u, id, l) ensures k == l {
      StepOwns(s, step, id, k);
      StepOwns(s, step, id, l);
      if Owns(s, id, k) { OwnedIdsAreDrawn(s, id, k); }
      if Owns(s, id, l) { OwnedIdsAreDrawn(s, id, l); }
    }
  }

  lemma {:induction false} RunKeepsOwners(s: State, steps: seq<Step>, u: State)
    requires Inv(s) && OneOwner(s) && Run(s, steps, u)
    ensures OneOwner(u)
    decreases |steps|
  {
    hide Inv, OneOwner, Enabled, Next;
    if steps != [] {
      StepKeeps(s, steps[0]);
      StepKeepsOwners(s, steps[0]);
      RunKeepsOwners(Next(s, steps[0]), steps[1..], u);
    }
  }

  lemma InitialOwners()
    ensures OneOwner(INITIAL)
  {
  }

  lemma OneOwnerAtEnd(steps: seq<Step>, s: State)
    requires Run(INITIAL, steps, s)
    ensures OneOwner(s)
  {
    hide Run, Inv, OneOwner;
    InitialInv();
    InitialOwners();
    RunKeepsOwners(INITIAL, steps, s);
  }

  /** A row with the subscription id of a command stands under the command's own e-mail and repository, in every
      reachable state: whatever happened to the subscription since, no other subscriber or repository ever has that
      id. */
  lemma RowsKeepTheirKey(steps: seq<Step>, s: State, c: Command, key: Key)
    requires Run(INITIAL, steps, s) && Sent(s, c)
    requires key in s.tables.subscriptions && s.tables.subscriptions[key].id == c.subscriptionId
    ensures key.email == c.email && key.repo == c.repo
  {
    hide Run, Sent, Genuine;
    SentIsGenuine(steps, s, c);
    OneOwnerAtEnd(steps, s);
    assert Owns(s, c.subscriptionId, key) && Owns(s, c.subscriptionId, Key(c.email, c.repo));
  }

  // ----- replies -----

  /** A reply in the results queue carries its command's own ids, e-mail, repository and token, and says "success"
      only if SMTP accepted that command's mail, "failure" only if it was refused. */
  lemma RepliesCarryTheCommand(s: State, r: Reply)
    requires Reachable(s) && Result(r) in s.queue
    ensures r.sagaId in s.commands
    ensures
      var c := s.commands[r.sagaId];
      && c.sagaId == r.sagaId && c.subscriptionId == r.subscriptionId
      && c.email == r.email && c.repo == r.repo && c.token == r.token
      && c in if r.success then s.accepted else s.refused
  {
    InvHolds(s);
    assert MessageOk(s, Result(r));
  }
}
