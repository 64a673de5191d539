/** The tracker's handlers and its release processor against the protocol: what they do, with the steps of others
    between their statements, is a run of the machine. */
module TrackerRuns {
  import opened Contracts
  import Outbox
  import opened TrackerTables
  import Tracker
  import opened TrackerStore
  import CachedReads
  import Releases
  import opened System
  import SystemInvariant

  /** The tracker's database in a state of the protocol. */
  function View(s: State): Db {
    Db(s.tracker.tables, SystemInvariant.Messages(s.tracker.outbox.insertLog))
  }

  function At(s: State, t: Tracker.State): State {
    s.(tracker := t)
  }

  /** Nobody else has worked on task `k` since. */
  ghost predicate Waits(s: State, k: nat, v: State) {
    k in s.tracker.tasks && k in v.tracker.tasks && v.tracker.tasks[k] == s.tracker.tasks[k]
  }

  ghost predicate CanWork(v: State, work: Tracker.Step) {
    Tracker.Enabled(v.tracker, work) && !work.Relay? && (work.Receive? ==> work.event in v.queue)
  }

  /** One statement of a handler or a pass. */
  lemma Works(s: State, steps: seq<Step>, v: State, work: Tracker.Step)
    requires Run(s, steps, v) && CanWork(v, work)
    ensures Run(s, steps + [TrackerStep(work, false)], At(v, Tracker.Next(v.tracker, work)))
  {
    RunThen(s, steps, v, TrackerStep(work, false));
  }

  /** The end of a handler: the acknowledgement, or an error before it. */
  function Stopped(v: State, k: nat, event: Message, settled: bool): State {
    v.(tracker := v.tracker.(tasks := v.tracker.tasks - {k}),
       queue := if settled then v.queue - multiset{event} else v.queue)
  }

  lemma Stops(s: State, steps: seq<Step>, v: State, k: nat, event: Message, settled: bool)
    requires Run(s, steps, v) && k in v.tracker.tasks && (settled ==> v.tracker.tasks[k] == Tracker.Acking(event))
    ensures Run(s, steps + [TrackerStep(Tracker.Stop(k), settled)], Stopped(v, k, event, settled))
  {
    hide Run;
    RunThen(s, steps, v, TrackerStep(Tracker.Stop(k), settled));
  }

  lemma Nothing(s: State)
    ensures Run(s, [], s)
  {
  }

  // ----- locating a repository -----

  function Tasked(s: State, k: nat, task: Tracker.Task): State {
    At(s, s.tracker.(tasks := s.tracker.tasks[k := task]))
  }

  /** How a call of GetOrCreate begins: as a gRPC call, or with the activation event of a handler. */
  function Arrival(k: nat, name: Name, caller: Tracker.Caller): Tracker.Step {
    match caller
    case Rpc => Tracker.Call(k, name)
    case Handler(key, token) => Tracker.Receive(k, Activated(key, token))
  }

  ghost predicate CanArrive(s: State, k: nat, name: Name, caller: Tracker.Caller) {
    && k !in s.tracker.tasks
    && (caller.Handler? ==> caller.key.repo == name && Activated(caller.key, caller.token) in s.queue)
  }

  /** After the lookup of the name. */
  function LookedUp(s: State, k: nat, name: Name, caller: Tracker.Caller): State {
    var rows := s.tracker.tables.repositories;
    Tasked(s, k, if name in rows then Tracker.Found(caller, name, rows[name]) else Tracker.Missing(name, caller))
  }

  lemma LookupRuns(s: State, k: nat, name: Name, caller: Tracker.Caller) returns (steps: seq<Step>)
    requires CanArrive(s, k, name, caller)
    ensures Run(s, steps, LookedUp(s, k, name, caller))
  {
    hide Run;
    var arrival := Arrival(k, name, caller);
    var t := Tasked(s, k, Tracker.Looking(name, caller));
    Nothing(s);
    Works(s, [], s, arrival);
    assert At(s, Tracker.Next(s.tracker, arrival)) == t;
    FindStep(s, t, k, name, caller);
    Works(s, [] + [TrackerStep(arrival, false)], t, Tracker.Find(k));
    steps := [] + [TrackerStep(arrival, false)] + [TrackerStep(Tracker.Find(k), false)];
  }

  lemma FindStep(s: State, t: State, k: nat, name: Name, caller: Tracker.Caller)
    requires t == Tasked(s, k, Tracker.Looking(name, caller))
    ensures CanWork(t, Tracker.Find(k))
    ensures At(t, Tracker.Next(t.tracker, Tracker.Find(k))) == LookedUp(s, k, name, caller)
  {
  }

  /** After the release has been fetched and the repository created. */
  function CreatedAt(v: State, k: nat, name: Name, caller: Tracker.Caller, id: nat, tag: Tag): State {
    At(v, v.tracker.(tables := Create(v.tracker.tables, name, id, tag),
                     tasks := v.tracker.tasks[k := Tracker.Found(caller, name, Repository(id, tag))],
                     names := v.tracker.names[id := name],
                     stored := v.tracker.stored + {Tracker.Stamp(name, tag)}))
  }

  lemma CreateStep(v: State, w: State, k: nat, name: Name, caller: Tracker.Caller, id: nat, tag: Tag)
    requires w == Tasked(v, k, Tracker.Creating(name, caller, tag))
    requires name !in v.tracker.tables.repositories && id !in v.tracker.names
    ensures CanWork(w, Tracker.Create(k, id))
    ensures At(w, Tracker.Next(w.tracker, Tracker.Create(k, id))) == CreatedAt(v, k, name, caller, id, tag)
  {
    var task := Tracker.Found(caller, name, Repository(id, tag));
    assert w.tracker.tasks[k := task] == v.tracker.tasks[k := task];
  }

  lemma CreateRuns(s: State, before: seq<Step>, v: State, k: nat, name: Name, caller: Tracker.Caller, id: nat, tag: Tag)
      returns (steps: seq<Step>)
    requires Run(s, before, v) && k in v.tracker.tasks && name !in v.tracker.tables.repositories
    requires v.tracker.tasks[k] == Tracker.Missing(name, caller) && id !in v.tracker.names
    ensures Run(s, steps, CreatedAt(v, k, name, caller, id, tag))
  {
    hide Run;
    var fetch, create := Tracker.Fetch(k, tag), Tracker.Create(k, id);
    var w := Tasked(v, k, Tracker.Creating(name, caller, tag));
    Works(s, before, v, fetch);
    assert At(v, Tracker.Next(v.tracker, fetch)) == w;
    CreateStep(v, w, k, name, caller, id, tag);
    Works(s, before + [TrackerStep(fetch, false)], w, create);
    steps := before + [TrackerStep(fetch, false)] + [TrackerStep(create, false)];
  }

  /** A GetOrCreate that finds the row: others act afterwards, until `x`. */
  ghost predicate FoundRow(s: State, k: nat, name: Name, caller: Tracker.Caller, later: seq<Step>, x: State) {
    && CanArrive(s, k, name, caller) && name in s.tracker.tables.repositories
    && Run(LookedUp(s, k, name, caller), later, x) && Waits(LookedUp(s, k, name, caller), k, x)
  }

  lemma FoundRuns(s: State, k: nat, name: Name, caller: Tracker.Caller, later: seq<Step>, x: State)
      returns (steps: seq<Step>)
    requires FoundRow(s, k, name, caller, later, x)
    ensures Run(s, steps, x)
  {
    hide Run;
    steps := LookupRuns(s, k, name, caller);
    RunConcat(s, steps, LookedUp(s, k, name, caller), later, x);
    steps := steps + later;
  }

  /** A GetOrCreate that registers the name with what the cached client reports: others act before that, until `v`, and
      afterwards, until `x`. */
  ghost predicate RegisteredRow(s: State, k: nat, name: Name, caller: Tracker.Caller, meanwhile: seq<Step>, v: State,
      id: nat, tag: Tag, later: seq<Step>, x: State) {
    && CanArrive(s, k, name, caller) && name !in s.tracker.tables.repositories
    && Run(LookedUp(s, k, name, caller), meanwhile, v) && Waits(LookedUp(s, k, name, caller), k, v)
    && name !in v.tracker.tables.repositories && id !in v.tracker.names
    && Run(CreatedAt(v, k, name, caller, id, tag), later, x) && Waits(CreatedAt(v, k, name, caller, id, tag), k, x)
  }

  lemma RegisteredRuns(s: State, k: nat, name: Name, caller: Tracker.Caller, meanwhile: seq<Step>, v: State, id: nat,
      tag: Tag, later: seq<Step>, x: State) returns (steps: seq<Step>)
    requires RegisteredRow(s, k, name, caller, meanwhile, v, id, tag, later, x)
    ensures Run(s, steps, x)
  {
    hide Run;
    var before := LookupRuns(s, k, name, caller);
    RunConcat(s, before, LookedUp(s, k, name, caller), meanwhile, v);
    steps := CreateRuns(s, before + meanwhile, v, k, name, caller, id, tag);
    RunConcat(s, steps, CreatedAt(v, k, name, caller, id, tag), later, x);
    steps := steps + later;
  }

  // ----- activation -----

  /** The upsert, if it succeeds, and the settlement. */
  lemma UpsertRuns(s: State, before: seq<Step>, x: State, k: nat, key: Key, token: Token, id: nat, upsertOk: bool)
      returns (steps: seq<Step>, u: State)
    requires Run(s, before, x) && k in x.tracker.tasks && x.tracker.tasks[k] == Tracker.Upserting(key, token, id)
    ensures Run(s, steps, u) && Upserts(x, key, token, id, upsertOk, u)
  {
    hide Run, HasId;
    if upsertOk && HasId(x.tracker.tables, id) {
      Works(s, before, x, Tracker.Upsert(k));
      steps := before + [TrackerStep(Tracker.Upsert(k), false)];
      var y := At(x, Tracker.Next(x.tracker, Tracker.Upsert(k)));
      Stops(s, steps, y, k, Activated(key, token), true);
      steps, u := steps + [TrackerStep(Tracker.Stop(k), true)], Stopped(y, k, Activated(key, token), true);
    } else {
      Stops(s, before, x, k, Activated(key, token), false);
      steps, u := before + [TrackerStep(Tracker.Stop(k), false)], Stopped(x, k, Activated(key, token), false);
    }
  }

  /** What the handler does from the row it found: exactly if the upsert succeeds, the event leaves its queue. */
  ghost predicate Upserts(x: State, key: Key, token: Token, id: nat, upsertOk: bool, u: State) {
    var stored := upsertOk && HasId(x.tracker.tables, id);
    && View(u) == (if stored then Upserted(View(x), id, key.email, token) else View(x))
    && u.queue == if stored then x.queue - multiset{Activated(key, token)} else x.queue
  }

  /** The activation's run ends as the handler's contract says, with the row `l` and amid the same doings of others, and
      the event has left its queue exactly if the handler acknowledged it. */
  ghost predicate ActivationEnds(l: Located, key: Key, token: Token, upsertOk: bool, between: Db -> Db, x: State,
      u: State) {
    exists statements: nat ::
      && ActivationHandled(l, key, token, upsertOk, between, statements, View(u))
      && u.queue == if statements == 2 then x.queue - multiset{Activated(key, token)} else x.queue
  }

  lemma UpsertsEnd(l: Located, x: State, key: Key, token: Token, upsertOk: bool, between: Db -> Db, u: State)
    requires l.row.Some? && between(l.db) == View(x) && Upserts(x, key, token, l.row.value.id, upsertOk, u)
    ensures ActivationEnds(l, key, token, upsertOk, between, x, u)
  {
    var statements: nat := if upsertOk && HasId(x.tracker.tables, l.row.value.id) then 2 else 1;
    assert ActivationHandled(l, key, token, upsertOk, between, statements, View(u));
  }

  /** An activation for a repository the lookup finds, others doing `later` before the upsert. */
  lemma KnownActivationIsARun(s: State, k: nat, key: Key, token: Token, later: seq<Step>, x: State, upsertOk: bool,
      id: nat, tag: Option<Tag>, meanwhile: Db -> Db, between: Db -> Db) returns (steps: seq<Step>, u: State)
    requires FoundRow(s, k, key.repo, Tracker.Handler(key, token), later, x) && between(View(s)) == View(x)
    ensures Run(s, steps, u)
    ensures ActivationEnds(Locates(View(s), key.repo, id, tag, true, meanwhile), key, token, upsertOk, between, x, u)
  {
    hide Run;
    var l := Locates(View(s), key.repo, id, tag, true, meanwhile);
    steps := FoundRuns(s, k, key.repo, Tracker.Handler(key, token), later, x);
    steps, u := UpsertRuns(s, steps, x, k, key, token, l.row.value.id, upsertOk);
    UpsertsEnd(l, x, key, token, upsertOk, between, u);
  }

  /** An activation that registers the repository, others doing `first` before and `later` after that. The tag it is
      registered with is the one that `GetOrCreate` gets from the cached client. */
  lemma NewActivationIsARun(s: State, k: nat, key: Key, token: Token, first: seq<Step>, v: State, id: nat,
      entries: CachedReads.Entries, w: RegisterWorld, later: seq<Step>, x: State, upsertOk: bool, meanwhile: Db -> Db,
      between: Db -> Db) returns (steps: seq<Step>, u: State)
    requires Registers(entries, key.repo, w).Some? && w.lookupOk
    requires
      var tag := Registers(entries, key.repo, w).value;
      && RegisteredRow(s, k, key.repo, Tracker.Handler(key, token), first, v, id, tag, later, x)
      && meanwhile(View(s)) == View(v) && between(Created(View(v), key.repo, id, tag)) == View(x)
    ensures Run(s, steps, u)
    ensures
      var l := Locates(View(s), key.repo, id, Registers(entries, key.repo, w), w.lookupOk, meanwhile);
      ActivationEnds(l, key, token, upsertOk, between, x, u)
  {
    hide Run;
    var tag := Registers(entries, key.repo, w).value;
    var l := Locates(View(s), key.repo, id, Registers(entries, key.repo, w), w.lookupOk, meanwhile);
    steps := RegisteredRuns(s, k, key.repo, Tracker.Handler(key, token), first, v, id, tag, later, x);
    steps, u := UpsertRuns(s, steps, x, k, key, token, id, upsertOk);
    UpsertsEnd(l, x, key, token, upsertOk, between, u);
  }

  /** An activation that neither finds nor registers the repository leaves what others did. */
  lemma FailedActivationIsARun(s: State, k: nat, key: Key, token: Token, meanwhile: seq<Step>, v: State)
      returns (steps: seq<Step>, u: State)
    requires CanArrive(s, k, key.repo, Tracker.Handler(key, token))
    requires
      var looked := LookedUp(s, k, key.repo, Tracker.Handler(key, token));
      Run(looked, meanwhile, v) && Waits(looked, k, v)
    ensures Run(s, steps, u) && View(u) == View(v) && u.queue == v.queue
  {
    hide Run;
    var before := LookupRuns(s, k, key.repo, Tracker.Handler(key, token));
    RunConcat(s, before, LookedUp(s, k, key.repo, Tracker.Handler(key, token)), meanwhile, v);
    Stops(s, before + meanwhile, v, k, Activated(key, token), false);
    steps := before + meanwhile + [TrackerStep(Tracker.Stop(k), false)];
    u := Stopped(v, k, Activated(key, token), false);
  }

  // ----- the gRPC call -----

  /** The answer reaches the subscription service, which goes on to store name and tag. */
  lemma AnswerRuns(s: State, before: seq<Step>, x: State, k: nat, name: Name, tag: Tag, request: nat)
      returns (steps: seq<Step>, u: State)
    requires Run(s, before, x) && k in x.tracker.tasks && x.tracker.tasks[k] == Tracker.Responding(name, tag)
    requires request !in x.requests
    ensures Run(s, steps, u) && View(u) == View(x) && k !in u.tracker.tasks
    ensures request in u.requests && u.requests[request] == Registering(name, tag)
  {
    hide Run;
    steps, u := before + [Api(Respond(k, request))], CallNext(x, Respond(k, request));
    RunThen(s, before, x, Api(Respond(k, request)));
  }

  /** A call for a known repository returns the row's tag as the lookup found it. */
  lemma KnownCallIsARun(s: State, k: nat, name: Name, later: seq<Step>, x: State, request: nat, id: nat,
      tag: Option<Tag>, meanwhile: Db -> Db) returns (steps: seq<Step>, u: State)
    requires FoundRow(s, k, name, Tracker.Rpc, later, x) && request !in x.requests
    ensures Run(s, steps, u) && View(u) == View(x)
    ensures
      var l := Locates(View(s), name, id, tag, true, meanwhile);
      && l == Located(Some(s.tracker.tables.repositories[name]), View(s))
      && request in u.requests && u.requests[request] == Registering(name, l.row.value.tag)
  {
    hide Run;
    steps := FoundRuns(s, k, name, Tracker.Rpc, later, x);
    steps, u := AnswerRuns(s, steps, x, k, name, s.tracker.tables.repositories[name].tag, request);
  }

  /** A call for an unknown repository registers it and returns the tag it was registered with, which is the one
      `GetOrCreate` gets from the cached client. */
  lemma NewCallIsARun(s: State, k: nat, name: Name, first: seq<Step>, v: State, id: nat, entries: CachedReads.Entries,
      w: RegisterWorld, later: seq<Step>, x: State, request: nat, meanwhile: Db -> Db)
      returns (steps: seq<Step>, u: State)
    requires Registers(entries, name, w).Some? && w.lookupOk && meanwhile(View(s)) == View(v) && request !in x.requests
    requires RegisteredRow(s, k, name, Tracker.Rpc, first, v, id, Registers(entries, name, w).value, later, x)
    ensures Run(s, steps, u) && View(u) == View(x)
    ensures
      var l := Locates(View(s), name, id, Registers(entries, name, w), w.lookupOk, meanwhile);
      var tag := Registers(entries, name, w).value;
      && l == Located(Some(Repository(id, tag)), View(CreatedAt(v, k, name, Tracker.Rpc, id, tag)))
      && request in u.requests && u.requests[request] == Registering(name, tag)
  {
    hide Run;
    var tag := Registers(entries, name, w).value;
    steps := RegisteredRuns(s, k, name, Tracker.Rpc, first, v, id, tag, later, x);
    steps, u := AnswerRuns(s, steps, x, k, name, tag, request);
  }

  // ----- unsubscription -----

  function RemovedAt(s: State, k: nat, key: Key): State {
    At(s, s.tracker.(tables := DeleteSubscription(s.tracker.tables, key),
                     tasks := s.tracker.tasks[k := Tracker.Checking(key)]))
  }

  lemma RemoveRuns(s: State, k: nat, key: Key) returns (steps: seq<Step>)
    requires k !in s.tracker.tasks && Unsubscribed(key) in s.queue
    ensures Run(s, steps, RemovedAt(s, k, key))
  {
    hide Run;
    var receive, remove := Tracker.Receive(k, Unsubscribed(key)), Tracker.Remove(k);
    var t := Tasked(s, k, Tracker.Removing(key));
    Nothing(s);
    Works(s, [], s, receive);
    assert At(s, Tracker.Next(s.tracker, receive)) == t;
    Works(s, [] + [TrackerStep(receive, false)], t, remove);
    assert At(t, Tracker.Next(t.tracker, remove)) == RemovedAt(s, k, key);
    steps := [] + [TrackerStep(receive, false)] + [TrackerStep(remove, false)];
  }

  /** After the check: done, or about to delete the repository. */
  function CheckedAt(v: State, k: nat, key: Key): State {
    Tasked(v, k, if HasSubscriptions(v.tracker.tables, key.repo) then Tracker.Acking(Unsubscribed(key))
                 else Tracker.Dropping(key))
  }

  lemma CheckRuns(s: State, before: seq<Step>, v: State, k: nat, key: Key)
    requires Run(s, before, v) && k in v.tracker.tasks && v.tracker.tasks[k] == Tracker.Checking(key)
    ensures Run(s, before + [TrackerStep(Tracker.Check(k), false)], CheckedAt(v, k, key))
  {
    hide Run;
    Works(s, before, v, Tracker.Check(k));
    assert At(v, Tracker.Next(v.tracker, Tracker.Check(k))) == CheckedAt(v, k, key);
  }

  lemma DropRuns(s: State, before: seq<Step>, x: State, k: nat, key: Key, dropOk: bool)
      returns (steps: seq<Step>, u: State)
    requires Run(s, before, x) && k in x.tracker.tasks && x.tracker.tasks[k] == Tracker.Dropping(key)
    ensures Run(s, steps, u) && View(u) == if dropOk then Dropped(View(x), key.repo) else View(x)
    ensures u.queue == if dropOk then x.queue - multiset{Unsubscribed(key)} else x.queue
  {
    hide Run;
    if dropOk {
      Works(s, before, x, Tracker.Drop(k));
      steps := before + [TrackerStep(Tracker.Drop(k), false)];
      var y := At(x, Tracker.Next(x.tracker, Tracker.Drop(k)));
      Stops(s, steps, y, k, Unsubscribed(key), true);
      steps, u := steps + [TrackerStep(Tracker.Stop(k), true)], Stopped(y, k, Unsubscribed(key), true);
    } else {
      Stops(s, before, x, k, Unsubscribed(key), false);
      steps, u := before + [TrackerStep(Tracker.Stop(k), false)], Stopped(x, k, Unsubscribed(key), false);
    }
  }

  /** An unsubscription that checks, finds nobody and goes on to delete the repository, others doing `first` before the
      check and `later` after it. */
  lemma EmptyingUnsubscriptionIsARun(s: State, k: nat, key: Key, first: seq<Step>, v: State, later: seq<Step>, x: State,
      dropOk: bool) returns (steps: seq<Step>, u: State)
    requires k !in s.tracker.tasks && Unsubscribed(key) in s.queue
    requires Run(RemovedAt(s, k, key), first, v) && Waits(RemovedAt(s, k, key), k, v)
    requires !HasSubscriptions(v.tracker.tables, key.repo)
    requires Run(CheckedAt(v, k, key), later, x) && Waits(CheckedAt(v, k, key), k, x)
    ensures Run(s, steps, u) && View(u) == if dropOk then Dropped(View(x), key.repo) else View(x)
    ensures u.queue == if dropOk then x.queue - multiset{Unsubscribed(key)} else x.queue
  {
    hide Run;
    var before := RemoveRuns(s, k, key);
    RunConcat(s, before, RemovedAt(s, k, key), first, v);
    CheckRuns(s, before + first, v, k, key);
    before := before + first + [TrackerStep(Tracker.Check(k), false)];
    RunConcat(s, before, CheckedAt(v, k, key), later, x);
    steps, u := DropRuns(s, before + later, x, k, key, dropOk);
  }

  /** An unsubscription that finds other subscribers is acknowledged; one whose check fails is not. Both leave what
      others did. */
  lemma UnsubscriptionIsARun(s: State, k: nat, key: Key, first: seq<Step>, v: State, checkOk: bool)
      returns (steps: seq<Step>, u: State)
    requires k !in s.tracker.tasks && Unsubscribed(key) in s.queue
    requires Run(RemovedAt(s, k, key), first, v) && Waits(RemovedAt(s, k, key), k, v)
    requires checkOk ==> HasSubscriptions(v.tracker.tables, key.repo)
    ensures Run(s, steps, u) && View(u) == View(v)
    ensures u.queue == if checkOk then v.queue - multiset{Unsubscribed(key)} else v.queue
  {
    hide Run;
    steps := RemoveRuns(s, k, key);
    RunConcat(s, steps, RemovedAt(s, k, key), first, v);
    steps := steps + first;
    var w := v;
    if checkOk {
      CheckRuns(s, steps, v, k, key);
      steps, w := steps + [TrackerStep(Tracker.Check(k), false)], CheckedAt(v, k, key);
    }
    Stops(s, steps, w, k, Unsubscribed(key), checkOk);
    steps, u := steps + [TrackerStep(Tracker.Stop(k), checkOk)], Stopped(w, k, Unsubscribed(key), checkOk);
  }

  // ----- release -----

  lemma {:induction false} NotesFanOut(name: Name, tag: Tag, subscribers: seq<Subscriber>, n: nat, i: nat)
    requires i < n <= |subscribers|
    ensures |Releases.NotesFor(name, tag, subscribers, n)| == n
    ensures Releases.NotesFor(name, tag, subscribers, n)[i] == Tracker.Note(name, tag, subscribers[i])
  {
    if n == 1 {
    } else if i == n - 1 {
      NotesFanOut(name, tag, subscribers, n - 1, 0);
    } else {
      NotesFanOut(name, tag, subscribers, n - 1, i);
    }
  }

  /** The rows the transaction inserts: its messages with the ids the database gives them. */
  function Rows(ids: seq<nat>, messages: seq<Message>): seq<Outbox.Entry>
    requires |ids| == |messages|
  {
    seq(|ids|, i requires 0 <= i < |ids| => Outbox.Entry(ids[i], messages[i]))
  }

  /** Moving a repository as the release processor does it is one step of the machine: the same tag, and in the outbox
      exactly its messages. */
  lemma ReleaseIsAStep(t: Tracker.State, k: nat, ids: seq<nat>)
    requires k in t.tasks && t.tasks[k].Releasing? && t.tasks[k].todo != [] && HasId(t.tables, t.tasks[k].todo[0].id)
    requires |ids| == |t.tasks[k].subscribers| && (forall i, j :: 0 <= i < j < |ids| ==> ids[i] != ids[j])
    requires forall id :: id in ids ==> !Outbox.Issued(t.outbox, id)
    ensures
      var c := t.tasks[k];
      var notes := Releases.NotesFor(c.todo[0].name, c.tag, c.subscribers, |c.subscribers|);
      |notes| == |ids| &&
      var step := Tracker.Release(k, Rows(ids, notes));
      && Tracker.Enabled(t, step)
      && Tracker.Next(t, step).tables == SetTag(t.tables, c.todo[0].id, c.tag)
      && Tracker.Next(t, step).outbox.insertLog == t.outbox.insertLog + Rows(ids, notes)
  {
    var c := t.tasks[k];
    forall i | 0 <= i < |ids| { NotesFanOut(c.todo[0].name, c.tag, c.subscribers, |ids|, i); }
    if ids != [] { NotesFanOut(c.todo[0].name, c.tag, c.subscribers, |ids|, 0); }
    var notes := Releases.NotesFor(c.todo[0].name, c.tag, c.subscribers, |c.subscribers|);
    forall e | e in Rows(ids, notes) ensures !Outbox.Issued(t.outbox, e.id) {
      var i :| 0 <= i < |ids| && Rows(ids, notes)[i] == e;
      assert ids[i] in ids;
    }
  }

  function DetectedAt(s: State, k: nat, todo: seq<Tracker.Snapshot>, tag: Tag): State {
    Tasked(s, k, Tracker.Detected(todo, tag))
  }

  function ReadAt(v: State, k: nat, todo: seq<Tracker.Snapshot>, tag: Tag, subscribers: seq<Subscriber>): State {
    Tasked(v, k, Tracker.Releasing(todo, tag, subscribers))
  }

  lemma DetectRuns(s: State, k: nat, todo: seq<Tracker.Snapshot>, tag: Tag) returns (steps: seq<Step>)
    requires k in s.tracker.tasks && s.tracker.tasks[k] == Tracker.Polling(todo) && todo != [] && tag != todo[0].tag
    ensures Run(s, steps, DetectedAt(s, k, todo, tag))
  {
    hide Run;
    Nothing(s);
    Works(s, [], s, Tracker.Detect(k, tag));
    assert At(s, Tracker.Next(s.tracker, Tracker.Detect(k, tag))) == DetectedAt(s, k, todo, tag);
    steps := [] + [TrackerStep(Tracker.Detect(k, tag), false)];
  }

  lemma ReadRuns(s: State, before: seq<Step>, v: State, k: nat, todo: seq<Tracker.Snapshot>, tag: Tag,
      subscribers: seq<Subscriber>) returns (steps: seq<Step>)
    requires Run(s, before, v) && k in v.tracker.tasks && v.tracker.tasks[k] == Tracker.Detected(todo, tag)
    requires todo != [] && Tracker.Lists(v.tracker.tables, todo[0].id, subscribers)
    ensures Run(s, steps, ReadAt(v, k, todo, tag, subscribers))
  {
    hide Run;
    Works(s, before, v, Tracker.Read(k, subscribers));
    assert At(v, Tracker.Next(v.tracker, Tracker.Read(k, subscribers))) == ReadAt(v, k, todo, tag, subscribers);
    steps := before + [TrackerStep(Tracker.Read(k, subscribers), false)];
  }

  /** Everything of one repository up to the transaction that is about to commit. */
  lemma UntilRelease(s: State, k: nat, todo: seq<Tracker.Snapshot>, tag: Tag, first: seq<Step>, v: State,
      subscribers: seq<Subscriber>, later: seq<Step>, x: State) returns (steps: seq<Step>)
    requires k in s.tracker.tasks && s.tracker.tasks[k] == Tracker.Polling(todo) && todo != [] && tag != todo[0].tag
    requires Run(DetectedAt(s, k, todo, tag), first, v) && Waits(DetectedAt(s, k, todo, tag), k, v)
    requires Tracker.Lists(v.tracker.tables, todo[0].id, subscribers)
    requires Run(ReadAt(v, k, todo, tag, subscribers), later, x)
    ensures Run(s, steps, x)
  {
    hide Run;
    steps := DetectRuns(s, k, todo, tag);
    RunConcat(s, steps, DetectedAt(s, k, todo, tag), first, v);
    steps := ReadRuns(s, steps + first, v, k, todo, tag, subscribers);
    RunConcat(s, steps, ReadAt(v, k, todo, tag, subscribers), later, x);
    steps := steps + later;
  }

  /** The state after the release commits. */
  ghost predicate ReleasedAt(x: State, k: nat, todo: seq<Tracker.Snapshot>, tag: Tag, subscribers: seq<Subscriber>,
      y: State) {
    && todo != [] && k in y.tracker.tasks && y.tracker.tasks[k] == Tracker.Announcing(todo, tag)
    && View(y) == Db(SetTag(x.tracker.tables, todo[0].id, tag),
                     View(x).outbox + Releases.NotesFor(todo[0].name, tag, subscribers, |subscribers|))
  }

  lemma RowMessages(log: seq<Outbox.Entry>, ids: seq<nat>, messages: seq<Message>)
    requires |ids| == |messages|
    ensures SystemInvariant.Messages(log + Rows(ids, messages)) == SystemInvariant.Messages(log) + messages
  {
  }

  lemma ReleaseRuns(s: State, before: seq<Step>, x: State, k: nat, todo: seq<Tracker.Snapshot>, tag: Tag,
      subscribers: seq<Subscriber>, ids: seq<nat>) returns (steps: seq<Step>, y: State)
    requires Run(s, before, x) && k in x.tracker.tasks
    requires x.tracker.tasks[k] == Tracker.Releasing(todo, tag, subscribers)
    requires todo != [] && HasId(x.tracker.tables, todo[0].id)
    requires |ids| == |subscribers| && (forall i, j :: 0 <= i < j < |ids| ==> ids[i] != ids[j])
    requires forall id :: id in ids ==> !Outbox.Issued(x.tracker.outbox, id)
    ensures Run(s, steps, y) && ReleasedAt(x, k, todo, tag, subscribers, y)
  {
    hide Run;
    ReleaseIsAStep(x.tracker, k, ids);
    var notes := Releases.NotesFor(todo[0].name, tag, subscribers, |subscribers|);
    var release := Tracker.Release(k, Rows(ids, notes));
    Works(s, before, x, release);
    RowMessages(x.tracker.outbox.insertLog, ids, notes);
    steps, y := before + [TrackerStep(release, false)], At(x, Tracker.Next(x.tracker, release));
  }

  /** A repository that moves as the processor moves it, others doing `first` before its subscribers are read and
      `later` until the transaction commits: the detection, the reading and the release are a run with the same
      outcome. */
  lemma ReleaseIsARun(s: State, k: nat, todo: seq<Tracker.Snapshot>, tag: Tag, first: seq<Step>, v: State,
      subscribers: seq<Subscriber>, later: seq<Step>, x: State, ids: seq<nat>, entries: CachedReads.Entries,
      fate: Releases.Fate)
      returns (steps: seq<Step>, y: State)
    requires k in s.tracker.tasks && s.tracker.tasks[k] == Tracker.Polling(todo) && todo != [] && tag != todo[0].tag
    requires Run(DetectedAt(s, k, todo, tag), first, v) && Waits(DetectedAt(s, k, todo, tag), k, v)
    requires Tracker.Lists(v.tracker.tables, todo[0].id, subscribers)
    requires Run(ReadAt(v, k, todo, tag, subscribers), later, x) && Waits(ReadAt(v, k, todo, tag, subscribers), k, x)
    requires HasId(x.tracker.tables, todo[0].id)
    requires |ids| == |subscribers| && (forall i, j :: 0 <= i < j < |ids| ==> ids[i] != ids[j])
    requires forall id :: id in ids ==> !Outbox.Issued(x.tracker.outbox, id)
    requires Releases.NewTag(entries, todo[0], fate) == Some(tag) && GoesThrough(s, v, x, todo[0], subscribers, fate)
    ensures Run(s, steps, y) && ReleasedAt(x, k, todo, tag, subscribers, y)
    ensures Releases.Processed(View(s), entries, todo[0], fate, View(y))
  {
    hide Run;
    steps := UntilRelease(s, k, todo, tag, first, v, subscribers, later, x);
    steps, y := ReleaseRuns(s, steps, x, k, todo, tag, subscribers, ids);
    SameRelease(s, v, x, k, todo, tag, subscribers, y, entries, fate);
  }

  /** Nothing of the processing fails, and others do between its statements what they do from `s` to `v` and from there
      to `x`. */
  ghost predicate GoesThrough(s: State, v: State, x: State, r: Tracker.Snapshot, subscribers: seq<Subscriber>,
      fate: Releases.Fate) {
    var luck := fate(r.id);
    && luck.readOk && luck.beforeRead(View(s)) == View(v)
    && Releases.Succeeds(luck.beforeBegin(View(v)).tables, r, |subscribers|, luck)
    && luck.during(luck.beforeBegin(View(v))) == View(x)
  }

  lemma SameRelease(s: State, v: State, x: State, k: nat, todo: seq<Tracker.Snapshot>, tag: Tag,
      subscribers: seq<Subscriber>, y: State, entries: CachedReads.Entries, fate: Releases.Fate)
    requires ReleasedAt(x, k, todo, tag, subscribers, y) && Tracker.Lists(v.tracker.tables, todo[0].id, subscribers)
    requires Releases.NewTag(entries, todo[0], fate) == Some(tag) && GoesThrough(s, v, x, todo[0], subscribers, fate)
    ensures Releases.Processed(View(s), entries, todo[0], fate, View(y))
  {
    var luck := fate(todo[0].id);
    assert Releases.Released(luck, luck.beforeBegin(View(v)), todo[0], tag, subscribers, View(y));
  }

  /** The tag update, or losing it, ends the repository. */
  lemma AnnouncementIsARun(y: State, k: nat, todo: seq<Tracker.Snapshot>, tag: Tag, publishOk: bool)
      returns (steps: seq<Step>, u: State)
    requires k in y.tracker.tasks && y.tracker.tasks[k] == Tracker.Announcing(todo, tag) && todo != []
    ensures Run(y, steps, u) && View(u) == View(y)
    ensures k in u.tracker.tasks && u.tracker.tasks[k] == Tracker.Polling(todo[1..])
    ensures u.tracker.announced ==
      y.tracker.announced + if publishOk then {Tracker.Stamp(todo[0].name, tag)} else {}
  {
    hide Run;
    var work := if publishOk then Tracker.Announce(k) else Tracker.Skip(k);
    Nothing(y);
    Works(y, [], y, work);
    steps, u := [] + [TrackerStep(work, false)], At(y, Tracker.Next(y.tracker, work));
  }
}
