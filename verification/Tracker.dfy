/** The tracker as a state machine over single statements: event handlers, GetOrCreate calls and release passes
    interleave freely; any of them may stop between two statements. */
module Tracker {
  import opened Contracts
  import Outbox
  import opened TrackerTables

  /** A repository as GetAll returned it. */
  datatype Snapshot = Snapshot(id: nat, name: Name, tag: Tag)

  /** A tag as stored for a repository name. */
  datatype Stamp = Stamp(name: Name, tag: Tag)

  datatype Caller = Rpc | Handler(key: Key, token: Token)

  datatype Task =
    // GetOrCreate, on behalf of the gRPC handler or of the activation handler
    | Looking(name: Name, caller: Caller)
    | Missing(name: Name, caller: Caller)
    | Creating(name: Name, caller: Caller, tag: Tag)
    | Responding(name: Name, tag: Tag)
    | Upserting(key: Key, token: Token, id: nat)
    // the unsubscription handler
    | Removing(key: Key)
    | Checking(key: Key)
    | Dropping(key: Key)
    // a handler done but for the acknowledgement
    | Acking(event: Message)
    // a release pass: the repositories still to do, the first being worked on
    | Polling(todo: seq<Snapshot>)
    | Detected(todo: seq<Snapshot>, tag: Tag)
    | Releasing(todo: seq<Snapshot>, tag: Tag, subscribers: seq<Subscriber>)
    | Announcing(todo: seq<Snapshot>, tag: Tag)

  /** `names`: the name every repository id was created for. `stored`: every tag ever stored. `announced`: every tag
      update ever published. */
  datatype State = State(
    tables: Tables, tasks: map<nat, Task>, outbox: Outbox.State,
    names: map<nat, Name>, stored: set<Stamp>, announced: set<Stamp>)

  const INITIAL := State(Tables(map[], map[]), map[], Outbox.INITIAL, map[], {}, {})

  datatype Step =
    | Receive(task: nat, event: Message)                    // a delivery reaches its handler
    | Call(task: nat, name: Name)                           // GetOrCreateRepository
    | Find(task: nat)                                       // GetByName
    | Fetch(task: nat, tag: Tag)                            // the repository exists; its latest release
    | Create(task: nat, id: nat)                            // INSERT INTO repositories
    | Upsert(task: nat)
    | Remove(task: nat)
    | Check(task: nat)
    | Drop(task: nat)
    | Poll(task: nat, todo: seq<Snapshot>)                  // GetAll
    | Detect(task: nat, tag: Tag)                           // CheckForUpdates found a new tag
    | Read(task: nat, subscribers: seq<Subscriber>)         // GetByRepoID
    | Release(task: nat, entries: seq<Outbox.Entry>)        // the transaction that moves the tag commits
    | Announce(task: nat)                                   // the tag update is published
    | Skip(task: nat)                                       // nothing new, or an error: on to the next repository
    | Stop(task: nat)                                       // an error, a crash, or the end
    | Relay(step: Outbox.Step)

  ghost predicate IsActive(t: Tables, s: Snapshot) {
    && s.name in t.repositories && t.repositories[s.name] == Repository(s.id, s.tag)
    && HasSubscriptions(t, s.name)
  }

  /** `todo` lists every repository with subscribers once. */
  ghost predicate ListsActive(t: Tables, todo: seq<Snapshot>) {
    && (forall i, j :: 0 <= i < j < |todo| ==> todo[i].name != todo[j].name)
    && (forall s :: s in todo ==> IsActive(t, s))
    && (forall n :: HasSubscriptions(t, n) ==> Snapshot(t.repositories[n].id, n, t.repositories[n].tag) in todo)
  }

  /** `subscribers` lists the rows of repository `id`, each once, in any order. */
  ghost predicate Lists(t: Tables, id: nat, subscribers: seq<Subscriber>) {
    && (forall i, j :: 0 <= i < j < |subscribers| ==> subscribers[i].email != subscribers[j].email)
    && (forall s :: s in subscribers ==>
          Place(id, s.email) in t.subscriptions && t.subscriptions[Place(id, s.email)] == s.token)
    && (forall p :: p in t.subscriptions && p.repositoryId == id ==>
          Subscriber(p.email, t.subscriptions[p]) in subscribers)
  }

  function Note(name: Name, tag: Tag, s: Subscriber): Message {
    Notification(Key(s.email, name), tag, s.token)
  }

  /** One outbox row per subscriber, in order. */
  ghost predicate FansOut(entries: seq<Outbox.Entry>, name: Name, tag: Tag, subscribers: seq<Subscriber>) {
    |entries| == |subscribers| &&
    forall i :: 0 <= i < |entries| ==> entries[i].message == Note(name, tag, subscribers[i])
  }

  ghost predicate Enabled(s: State, step: Step) {
    match step
    case Receive(k, e) => k !in s.tasks && (e.Activated? || e.Unsubscribed?)
    case Call(k, _) => k !in s.tasks
    case Find(k) => k in s.tasks && s.tasks[k].Looking?
    case Fetch(k, _) => k in s.tasks && s.tasks[k].Missing?
    case Create(k, id) =>
      && k in s.tasks && s.tasks[k].Creating?
      && s.tasks[k].name !in s.tables.repositories && id !in s.names
    case Upsert(k) => k in s.tasks && s.tasks[k].Upserting? && HasId(s.tables, s.tasks[k].id)
    case Remove(k) => k in s.tasks && s.tasks[k].Removing?
    case Check(k) => k in s.tasks && s.tasks[k].Checking?
    case Drop(k) => k in s.tasks && s.tasks[k].Dropping?
    case Poll(k, todo) => k !in s.tasks && ListsActive(s.tables, todo)
    case Detect(k, tag) =>
      k in s.tasks && s.tasks[k].Polling? && s.tasks[k].todo != [] && tag != s.tasks[k].todo[0].tag
    case Read(k, subscribers) =>
      && k in s.tasks && s.tasks[k].Detected? && s.tasks[k].todo != []
      && Lists(s.tables, s.tasks[k].todo[0].id, subscribers)
    case Release(k, entries) =>
      && k in s.tasks && s.tasks[k].Releasing? && s.tasks[k].todo != []
      && var c := s.tasks[k];
         && HasId(s.tables, c.todo[0].id)
         && FansOut(entries, c.todo[0].name, c.tag, c.subscribers)
         && Outbox.Enabled(s.outbox, Outbox.Commit(entries))
    case Announce(k) => k in s.tasks && s.tasks[k].Announcing? && s.tasks[k].todo != []
    case Skip(k) =>
      && k in s.tasks
      && (s.tasks[k].Polling? || s.tasks[k].Detected? || s.tasks[k].Releasing? || s.tasks[k].Announcing?)
      && s.tasks[k].todo != []
    case Stop(k) => k in s.tasks
    case Relay(o) => !o.Commit? && Outbox.Enabled(s.outbox, o)
  }

  function Moved(s: State, task: nat, next: Task): State {
    s.(tasks := s.tasks[task := next])
  }

  function Found(caller: Caller, name: Name, r: Repository): Task {
    match caller
    case Rpc => Responding(name, r.tag)
    case Handler(key, token) => Upserting(key, token, r.id)
  }

  ghost function Next(s: State, step: Step): State
    requires Enabled(s, step)
  {
    match step
    case Receive(k, Activated(key, token)) => Moved(s, k, Looking(key.repo, Handler(key, token)))
    case Receive(k, e) => Moved(s, k, Removing(e.key))
    case Call(k, name) => Moved(s, k, Looking(name, Rpc))
    case Find(k) =>
      var c := s.tasks[k];
      Moved(s, k, if c.name in s.tables.repositories then Found(c.caller, c.name, s.tables.repositories[c.name])
                  else Missing(c.name, c.caller))
    case Fetch(k, tag) => Moved(s, k, Creating(s.tasks[k].name, s.tasks[k].caller, tag))
    case Create(k, id) =>
      var c := s.tasks[k];
      Moved(s, k, Found(c.caller, c.name, Repository(id, c.tag)))
        .(tables := TrackerTables.Create(s.tables, c.name, id, c.tag),
          names := s.names[id := c.name], stored := s.stored + {Stamp(c.name, c.tag)})
    case Upsert(k) =>
      var c := s.tasks[k];
      Moved(s, k, Acking(Activated(c.key, c.token)))
        .(tables := TrackerTables.Upsert(s.tables, c.id, c.key.email, c.token))
    case Remove(k) =>
      Moved(s, k, Checking(s.tasks[k].key)).(tables := DeleteSubscription(s.tables, s.tasks[k].key))
    case Check(k) =>
      var key := s.tasks[k].key;
      Moved(s, k, if HasSubscriptions(s.tables, key.repo) then Acking(Unsubscribed(key)) else Dropping(key))
    case Drop(k) =>
      var key := s.tasks[k].key;
      Moved(s, k, Acking(Unsubscribed(key))).(tables := DeleteRepository(s.tables, key.repo))
    case Poll(k, todo) => Moved(s, k, Polling(todo))
    case Detect(k, tag) => Moved(s, k, Detected(s.tasks[k].todo, tag))
    case Read(k, subscribers) => Moved(s, k, Releasing(s.tasks[k].todo, s.tasks[k].tag, subscribers))
    case Release(k, entries) =>
      var c := s.tasks[k];
      Moved(s, k, Announcing(c.todo, c.tag))
        .(tables := SetTag(s.tables, c.todo[0].id, c.tag),
          stored := s.stored + {Stamp(c.todo[0].name, c.tag)},
          outbox := Outbox.Next(s.outbox, Outbox.Commit(entries)))
    case Announce(k) =>
      var c := s.tasks[k];
      Moved(s, k, Polling(c.todo[1..])).(announced := s.announced + {Stamp(c.todo[0].name, c.tag)})
    case Skip(k) => Moved(s, k, Polling(s.tasks[k].todo[1..]))
    case Stop(k) => s.(tasks := s.tasks - {k})
    case Relay(o) => s.(outbox := Outbox.Next(s.outbox, o))
  }

  ghost predicate Run(s: State, steps: seq<Step>, u: State)
    decreases |steps|
  {
    if steps == [] then u == s
    else Enabled(s, steps[0]) && Run(Next(s, steps[0]), steps[1..], u)
  }

  // ----- every notification was opted into -----

  /** Confirm was called with this token while it was the token of this subscription. */
  datatype Grant = Grant(key: Key, token: Token)

  ghost predicate Known(s: State, id: nat, name: Name) {
    id in s.names && s.names[id] == name
  }

  ghost predicate CallerOk(name: Name, caller: Caller, granted: set<Grant>) {
    caller.Handler? ==> caller.key.repo == name && Grant(caller.key, caller.token) in granted
  }

  ghost predicate TodoOk(s: State, todo: seq<Snapshot>) {
    forall r :: r in todo ==> Known(s, r.id, r.name)
  }

  ghost predicate TaskOk(s: State, task: Task, granted: set<Grant>) {
    match task
    case Looking(name, caller) => CallerOk(name, caller, granted)
    case Missing(name, caller) => CallerOk(name, caller, granted)
    case Creating(name, caller, _) => CallerOk(name, caller, granted)
    case Upserting(key, token, id) => Known(s, id, key.repo) && Grant(key, token) in granted
    case Polling(todo) => TodoOk(s, todo)
    case Detected(todo, _) => TodoOk(s, todo)
    case Releasing(todo, _, subscribers) =>
      && TodoOk(s, todo)
      && (todo != [] ==> forall x :: x in subscribers ==> Grant(Key(x.email, todo[0].name), x.token) in granted)
    case Announcing(todo, _) => TodoOk(s, todo)
    case Acking(event) => event.Activated? || event.Unsubscribed?
    case _ => true
  }

  ghost predicate RepositoriesOk(s: State) {
    forall n :: n in s.tables.repositories ==> Known(s, s.tables.repositories[n].id, n)
  }

  ghost predicate SubscribersOk(s: State, granted: set<Grant>) {
    forall p :: p in s.tables.subscriptions ==>
      p.repositoryId in s.names && Grant(Key(p.email, s.names[p.repositoryId]), s.tables.subscriptions[p]) in granted
  }

  ghost predicate NotesOk(s: State, granted: set<Grant>) {
    forall e :: e in s.outbox.insertLog ==> e.message.Notification? && Grant(e.message.key, e.message.token) in granted
  }

  ghost predicate OptedIn(s: State, granted: set<Grant>) {
    && RepositoriesOk(s) && SubscribersOk(s, granted) && NotesOk(s, granted)
    && (forall k :: k in s.tasks ==> TaskOk(s, s.tasks[k], granted))
  }

  /** Events only bring granted tokens in. */
  predicate Brings(step: Step, granted: set<Grant>) {
    step.Receive? && step.event.Activated? ==> Grant(step.event.key, step.event.token) in granted
  }

  lemma MoreGrants(s: State, granted: set<Grant>, more: set<Grant>)
    requires OptedIn(s, granted) && granted <= more
    ensures OptedIn(s, more)
  {
    forall k | k in s.tasks ensures TaskOk(s, s.tasks[k], more) { assert TaskOk(s, s.tasks[k], granted); }
  }

  lemma OtherTasksOk(s: State, u: State, granted: set<Grant>)
    requires forall k :: k in s.tasks ==> TaskOk(s, s.tasks[k], granted)
    requires forall id :: id in s.names ==> id in u.names && u.names[id] == s.names[id]
    ensures forall k :: k in s.tasks ==> TaskOk(u, s.tasks[k], granted)
  {
    forall k | k in s.tasks ensures TaskOk(u, s.tasks[k], granted) { assert TaskOk(s, s.tasks[k], granted); }
  }

  lemma ReleasedNotesOk(s: State, k: nat, entries: seq<Outbox.Entry>, granted: set<Grant>)
    requires NotesOk(s, granted) && Enabled(s, Release(k, entries)) && TaskOk(s, s.tasks[k], granted)
    ensures NotesOk(Next(s, Release(k, entries)), granted)
  {
    var u, c := Next(s, Release(k, entries)), s.tasks[k];
    forall e | e in u.outbox.insertLog
      ensures e.message.Notification? && Grant(e.message.key, e.message.token) in granted
    {
      if e !in s.outbox.insertLog {
        var i :| 0 <= i < |entries| && entries[i] == e;
        assert c.subscribers[i] in c.subscribers;
      }
    }
  }

  lemma ReleaseKeepsOptIn(s: State, k: nat, entries: seq<Outbox.Entry>, granted: set<Grant>)
    requires OptedIn(s, granted) && Enabled(s, Release(k, entries))
    ensures OptedIn(Next(s, Release(k, entries)), granted)
  {
    assert TaskOk(s, s.tasks[k], granted);
    ReleasedNotesOk(s, k, entries, granted);
    hide NotesOk;
    OtherTasksOk(s, Next(s, Release(k, entries)), granted);
  }

  predicate Writes(step: Step) {
    step.Create? || step.Upsert? || step.Remove? || step.Drop?
  }

  lemma CreateKeepsOptIn(s: State, k: nat, id: nat, granted: set<Grant>)
    requires OptedIn(s, granted) && Enabled(s, Create(k, id))
    ensures OptedIn(Next(s, Create(k, id)), granted)
  {
    assert TaskOk(s, s.tasks[k], granted);
    OtherTasksOk(s, Next(s, Create(k, id)), granted);
  }

  lemma WriteKeepsOptIn(s: State, step: Step, granted: set<Grant>)
    requires OptedIn(s, granted) && Enabled(s, step) && Writes(step)
    ensures OptedIn(Next(s, step), granted)
  {
    if step.Create? {
      CreateKeepsOptIn(s, step.task, step.id, granted);
    } else {
      assert TaskOk(s, s.tasks[step.task], granted);
      OtherTasksOk(s, Next(s, step), granted);
    }
  }

  /** A step of a task that changes no table leaves the task in order. */
  lemma MovedTaskOk(s: State, step: Step, granted: set<Grant>)
    requires OptedIn(s, granted) && Enabled(s, step) && Brings(step, granted)
    requires !Writes(step) && !step.Release? && !step.Relay? && !step.Stop?
    ensures TaskOk(s, Next(s, step).tasks[step.task], granted)
  {
    if step.task in s.tasks { assert TaskOk(s, s.tasks[step.task], granted); }
  }

  lemma MoveFrame(s: State, step: Step)
    requires Enabled(s, step) && !Writes(step) && !step.Release? && !step.Relay?
    ensures var u := Next(s, step);
      u == s.(tasks := u.tasks, announced := u.announced) && u.tasks.Keys <= s.tasks.Keys + {step.task}
    ensures !step.Stop? ==> step.task in Next(s, step).tasks
    ensures forall k :: k in Next(s, step).tasks && k != step.task ==> Next(s, step).tasks[k] == s.tasks[k]
    ensures step.Stop? ==> step.task !in Next(s, step).tasks
  {
  }

  lemma MoveKeepsOptIn(s: State, step: Step, granted: set<Grant>)
    requires OptedIn(s, granted) && Enabled(s, step) && Brings(step, granted)
    requires !Writes(step) && !step.Release? && !step.Relay?
    ensures OptedIn(Next(s, step), granted)
  {
    var u := Next(s, step);
    MoveFrame(s, step);
    if !step.Stop? { MovedTaskOk(s, step, granted); }
    OtherTasksOk(s, u, granted);
    forall k | k in u.tasks ensures TaskOk(u, u.tasks[k], granted) {
      if k == step.task { SameTaskOk(s, u, u.tasks[k], granted); }
    }
  }

  lemma SameTaskOk(s: State, u: State, task: Task, granted: set<Grant>)
    requires u == s.(tasks := u.tasks, announced := u.announced) && TaskOk(s, task, granted)
    ensures TaskOk(u, task, granted)
  {
  }

  lemma RelayKeepsOptIn(s: State, o: Outbox.Step, granted: set<Grant>)
    requires OptedIn(s, granted) && Enabled(s, Relay(o))
    ensures OptedIn(Next(s, Relay(o)), granted)
  {
    var u := Next(s, Relay(o));
    assert u.outbox.insertLog == s.outbox.insertLog;
    OtherTasksOk(s, u, granted);
  }

  lemma StepKeepsOptIn(s: State, step: Step, granted: set<Grant>)
    requires OptedIn(s, granted) && Enabled(s, step) && Brings(step, granted)
    ensures OptedIn(Next(s, step), granted)
  {
    if step.Release? {
      ReleaseKeepsOptIn(s, step.task, step.entries, granted);
    } else if step.Relay? {
      RelayKeepsOptIn(s, step.step, granted);
    } else if Writes(step) {
      WriteKeepsOptIn(s, step, granted);
    } else {
      MoveKeepsOptIn(s, step, granted);
    }
  }

  /** Whatever events arrive, there are grants that account for them. */
  ghost predicate Sound(s: State) {
    exists granted :: OptedIn(s, granted)
  }

  lemma SoundKept(s: State, step: Step)
    requires Sound(s) && Enabled(s, step)
    ensures Sound(Next(s, step))
  {
    var granted :| OptedIn(s, granted);
    var more := if step.Receive? && step.event.Activated? then {Grant(step.event.key, step.event.token)} else {};
    MoreGrants(s, granted, granted + more);
    StepKeepsOptIn(s, step, granted + more);
  }

  // ----- tags are never invented -----

  ghost predicate TagsStored(s: State) {
    && (forall n :: n in s.tables.repositories ==> Stamp(n, s.tables.repositories[n].tag) in s.stored)
    && (forall k :: k in s.tasks && s.tasks[k].Responding? ==> Stamp(s.tasks[k].name, s.tasks[k].tag) in s.stored)
    && (forall k :: k in s.tasks && s.tasks[k].Announcing? && s.tasks[k].todo != [] ==>
          Stamp(s.tasks[k].todo[0].name, s.tasks[k].tag) in s.stored)
    && s.announced <= s.stored
  }

  lemma WriteKeepsTags(s: State, step: Step)
    requires TagsStored(s) && Enabled(s, step) && Writes(step)
    ensures TagsStored(Next(s, step)) && s.stored <= Next(s, step).stored
  {
  }

  lemma ReleaseKeepsTags(s: State, k: nat, entries: seq<Outbox.Entry>, granted: set<Grant>)
    requires TagsStored(s) && OptedIn(s, granted) && Enabled(s, Release(k, entries))
    ensures TagsStored(Next(s, Release(k, entries))) && s.stored <= Next(s, Release(k, entries)).stored
  {
    assert TaskOk(s, s.tasks[k], granted) && s.tasks[k].todo[0] in s.tasks[k].todo;
  }

  lemma MoveKeepsTags(s: State, step: Step)
    requires TagsStored(s) && Enabled(s, step) && !Writes(step) && !step.Release?
    ensures TagsStored(Next(s, step)) && s.stored == Next(s, step).stored
  {
  }

  lemma StepKeepsTags(s: State, step: Step, granted: set<Grant>)
    requires TagsStored(s) && OptedIn(s, granted) && Enabled(s, step)
    ensures TagsStored(Next(s, step)) && s.stored <= Next(s, step).stored
  {
    if Writes(step) {
      WriteKeepsTags(s, step);
    } else if step.Release? {
      ReleaseKeepsTags(s, step.task, step.entries, granted);
    } else {
      MoveKeepsTags(s, step);
    }
  }

  ghost predicate HasTag(s: State, stamp: Stamp) {
    stamp.name in s.tables.repositories && s.tables.repositories[stamp.name].tag == stamp.tag
  }

  lemma ReleasedRowHasTag(s: State, step: Step, granted: set<Grant>)
    requires OptedIn(s, granted) && Enabled(s, step) && step.Release?
    ensures HasTag(Next(s, step), Stamp(s.tasks[step.task].todo[0].name, s.tasks[step.task].tag))
  {
    var r := s.tasks[step.task].todo[0];
    assert TaskOk(s, s.tasks[step.task], granted) && r in s.tasks[step.task].todo;
    var n :| n in s.tables.repositories && s.tables.repositories[n].id == r.id;
    assert Known(s, r.id, n);
  }

  lemma MovesStoreNothing(s: State, step: Step)
    requires Enabled(s, step) && !step.Create? && !step.Release?
    ensures Next(s, step).stored == s.stored
  {
  }

  /** A tag enters the history of a name exactly when a row of that name comes to hold it. */
  lemma StampsAreRows(s: State, step: Step, granted: set<Grant>, stamp: Stamp)
    requires TagsStored(s) && OptedIn(s, granted) && Enabled(s, step) && stamp !in s.stored
    ensures stamp in Next(s, step).stored <==> HasTag(Next(s, step), stamp)
  {
    StepKeepsTags(s, step, granted);
    if step.Release? {
      ReleasedRowHasTag(s, step, granted);
    } else if !step.Create? {
      MovesStoreNothing(s, step);
    }
  }
}
