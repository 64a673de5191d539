/** Release passes that do not overlap never announce twice, and two that do overlap can. */
module OverlappingPasses {
  import opened Contracts
  import Outbox
  import opened TrackerTables
  import Tracker
  import Client = CachedReads
  import opened Announcements

  // ----- one pass at a time -----

  ghost predicate OnePass(t: Tracker.State) {
    forall j, k :: j in t.tasks && k in t.tasks && Passing(t.tasks[j]) && Passing(t.tasks[k]) ==> j == k
  }

  ghost predicate OnePassThroughout(s: State, steps: seq<Step>)
    decreases |steps|
  {
    && OnePass(s.tracker)
    && (steps != [] && Enabled(s, steps[0]) ==> OnePassThroughout(Next(s, steps[0]), steps[1..]))
  }

  /** What the pass has still to release. */
  function Rest(task: Tracker.Task): seq<Tracker.Snapshot>
    requires Passing(task)
  {
    if task.Announcing? && task.todo != [] then task.todo[1..] else task.todo
  }

  ghost predicate Fresh(t: Tables, todo: seq<Tracker.Snapshot>) {
    && (forall i, j :: 0 <= i < j < |todo| ==> todo[i].name != todo[j].name)
    && (forall r :: r in todo ==> UpToDate(t, r))
  }

  ghost predicate PassesFresh(t: Tracker.State) {
    forall k :: k in t.tasks && Passing(t.tasks[k]) ==> Fresh(t.tables, Rest(t.tasks[k]))
  }

  lemma PollIsFresh(t: Tables, todo: seq<Tracker.Snapshot>)
    requires Tracker.ListsActive(t, todo)
    ensures Fresh(t, todo)
  {
    forall r | r in todo ensures UpToDate(t, r) { assert Tracker.IsActive(t, r); }
  }

  lemma TailIsFresh(t: Tables, todo: seq<Tracker.Snapshot>)
    requires todo != [] && Fresh(t, todo)
    ensures Fresh(t, todo[1..])
  {
    assert forall r :: r in todo[1..] ==> r in todo;
  }

  /** A repository row is only created under a new id. */
  lemma CreateKeepsFresh(t: Tracker.State, k: nat, id: nat, j: nat)
    requires Tracker.Sound(t) && Tracker.Enabled(t, Tracker.Create(k, id))
    requires j in t.tasks && Passing(t.tasks[j]) && Fresh(t.tables, Rest(t.tasks[j]))
    ensures Fresh(Tracker.Next(t, Tracker.Create(k, id)).tables, Rest(t.tasks[j]))
  {
    forall r | r in Rest(t.tasks[j]) ensures r.id != id { TodoIsNamed(t, j, r); }
  }

  lemma DropKeepsFresh(t: Tracker.State, k: nat, todo: seq<Tracker.Snapshot>)
    requires Tracker.Enabled(t, Tracker.Drop(k)) && Fresh(t.tables, todo)
    ensures Fresh(Tracker.Next(t, Tracker.Drop(k)).tables, todo)
  {
    DropFrame(t, k);
  }

  /** The pass moves the row of the repository it is at, and of no other on its list. */
  lemma ReleaseKeepsFresh(t: Tracker.State, k: nat, entries: seq<Outbox.Entry>)
    requires Tracker.Sound(t) && Tracker.Enabled(t, Tracker.Release(k, entries)) && Fresh(t.tables, t.tasks[k].todo)
    ensures
      var u := Tracker.Next(t, Tracker.Release(k, entries));
      Passing(u.tasks[k]) && Fresh(u.tables, Rest(u.tasks[k]))
  {
    var u, todo := Tracker.Next(t, Tracker.Release(k, entries)), t.tasks[k].todo;
    TailIsFresh(t.tables, todo);
    forall r | r in todo[1..] ensures UpToDate(u.tables, r) {
      TodoIsNamed(t, k, r);
      TodoIsNamed(t, k, todo[0]);
      assert r.name != todo[0].name;
    }
  }

  /** Where a step that moves no row moves a pass. */
  lemma MoveKeepsFresh(t: Tracker.State, work: Tracker.Step)
    requires PassesFresh(t) && Tracker.Enabled(t, work) && Quiet(work) && !work.Relay? && !work.Stop?
    requires Passing(Tracker.Next(t, work).tasks[work.task])
    ensures Fresh(t.tables, Rest(Tracker.Next(t, work).tasks[work.task]))
  {
    if work.Poll? {
      PollIsFresh(t.tables, work.todo);
    } else {
      var c := t.tasks[work.task];
      assert Fresh(t.tables, Rest(c));
      if work.Skip? && !c.Announcing? { TailIsFresh(t.tables, c.todo); }
    }
  }

  lemma StillFresh(t: Tracker.State, work: Tracker.Step, j: nat)
    requires Tracker.Sound(t) && OnePass(t) && PassesFresh(t) && Tracker.Enabled(t, work)
    requires j in Tracker.Next(t, work).tasks && Passing(Tracker.Next(t, work).tasks[j])
    ensures Fresh(Tracker.Next(t, work).tables, Rest(Tracker.Next(t, work).tasks[j]))
  {
    if work.Create? {
      OtherTask(t, work, j);
      CreateKeepsFresh(t, work.task, work.id, j);
    } else if work.Drop? {
      OtherTask(t, work, j);
      DropKeepsFresh(t, work.task, Rest(t.tasks[j]));
    } else if work.Release? {
      if j != work.task { OtherTask(t, work, j); }
      assert j == work.task && Rest(t.tasks[j]) == t.tasks[j].todo;
      ReleaseKeepsFresh(t, work.task, work.entries);
    } else {
      QuietFrame(t, work);
      SameRowsFresh(t, work, j);
    }
  }

  lemma SameRowsFresh(t: Tracker.State, work: Tracker.Step, j: nat)
    requires PassesFresh(t) && Tracker.Enabled(t, work) && Quiet(work)
    requires Tracker.Next(t, work).tables.repositories == t.tables.repositories
    requires j in Tracker.Next(t, work).tasks && Passing(Tracker.Next(t, work).tasks[j])
    ensures Fresh(Tracker.Next(t, work).tables, Rest(Tracker.Next(t, work).tasks[j]))
  {
    if work.Relay? || j != work.task { OtherTask(t, work, j); } else { MoveKeepsFresh(t, work); }
  }

  lemma WorkKeepsFresh(t: Tracker.State, work: Tracker.Step)
    requires Tracker.Sound(t) && OnePass(t) && PassesFresh(t) && Tracker.Enabled(t, work)
    ensures Tracker.Sound(Tracker.Next(t, work)) && PassesFresh(Tracker.Next(t, work)) && !Stale(t, work)
  {
    var u := Tracker.Next(t, work);
    Tracker.SoundKept(t, work);
    forall j | j in u.tasks && Passing(u.tasks[j]) ensures Fresh(u.tables, Rest(u.tasks[j])) { StillFresh(t, work, j); }
    if work.Release? { assert Fresh(t.tables, Rest(t.tasks[work.task])); }
  }

  lemma {:induction false} OnePassIsNeverStale(s: State, steps: seq<Step>, u: State)
    requires Run(s, steps, u) && OnePassThroughout(s, steps) && Tracker.Sound(s.tracker) && PassesFresh(s.tracker)
    ensures NeverStale(s, steps)
    decreases |steps|
  {
    if steps != [] {
      match steps[0] {
        case Remote(_, _) =>
        case Answered(_, _, work) => WorkKeepsFresh(s.tracker, work);
        case Work(work) => WorkKeepsFresh(s.tracker, work);
      }
      OnePassIsNeverStale(Next(s, steps[0]), steps[1..], u);
    }
  }

  /** With one release pass at a time, as the single worker makes them, no tag is announced twice. */
  lemma OnePassNeverAnnouncesTwice(steps: seq<Step>, s: State, i: nat, j: nat)
    requires Run(INITIAL, steps, s) && OnePassThroughout(INITIAL, steps) && i < j < |s.tracker.outbox.insertLog|
    ensures !SameNote(s.tracker.outbox.insertLog[i].message, s.tracker.outbox.insertLog[j].message)
  {
    InitialInv();
    OnePassIsNeverStale(INITIAL, steps, s);
    NoTagIsAnnouncedTwice(steps, s, i, j);
  }

  // ----- two passes -----

  ghost predicate Reaches(steps: seq<Step>, s: State) {
    Run(INITIAL, steps, s)
  }

  lemma {:induction false} RunThen(s: State, steps: seq<Step>, t: State, step: Step)
    requires Run(s, steps, t) && Enabled(t, step) && Allowed(Next(t, step))
    ensures Run(s, steps + [step], Next(t, step))
    decreases |steps|
  {
    if steps == [] {
      assert ([] + [step])[1..] == [];
    } else {
      RunThen(Next(s, steps[0]), steps[1..], t, step);
      assert (steps + [step])[1..] == steps[1..] + [step];
    }
  }

  lemma Then(steps: seq<Step>, s: State, step: Step) returns (steps': seq<Step>, u: State)
    requires Reaches(steps, s) && Enabled(s, step) && Allowed(Next(s, step))
    ensures Reaches(steps', u) && u == Next(s, step)
  {
    steps', u := steps + [step], Next(s, step);
    RunThen(INITIAL, steps, s, step);
  }

  lemma ThenWork(steps: seq<Step>, s: State, work: Tracker.Step) returns (steps': seq<Step>, u: State)
    requires Reaches(steps, s) && Tracker.Enabled(s.tracker, work) && !work.Fetch? && !work.Detect?
    requires OneRegistration(Tracker.Next(s.tracker, work))
    ensures Reaches(steps', u) && u == State(Tracker.Next(s.tracker, work), s.clients)
  {
    assert Allowed(s) by { AllowedAtEnd(INITIAL, steps, s); }
    steps', u := Then(steps, s, Work(work));
  }

  lemma {:induction false} AllowedAtEnd(s: State, steps: seq<Step>, u: State)
    requires Run(s, steps, u)
    ensures Allowed(u)
    decreases |steps|
  {
    if steps != [] { AllowedAtEnd(Next(s, steps[0]), steps[1..], u); }
  }

  /** GitHub's history and the cache of the one repository. */
  function Reading(timeline: seq<Client.Version<Tag>>, cache: Option<Client.Entry>, pending: Option<Client.Pending>,
                   handed: seq<Client.Read>): Client.State<Tag> {
    Client.State(Client.RELEASE_TTL, 0, timeline, cache, pending, handed)
  }

  const READ := Client.Read(0, 0, 0, 0)
  const AGAIN := Client.Read(1, 0, 0, 0)

  function Published(tags: seq<Tag>): seq<Client.Version<Tag>> {
    seq(|tags|, i requires 0 <= i < |tags| => Client.Version(tags[i], 0))
  }

  lemma ThenRemote(steps: seq<Step>, s: State, name: Name, move: Client.Step<Tag>) returns (steps': seq<Step>, u: State)
    requires Reaches(steps, s) && s.clients.Keys <= {name} && Client.Enabled(ClientOf(s.clients, name), move)
    requires NeverRepeats(Client.Next(ClientOf(s.clients, name), move).timeline)
    ensures Reaches(steps', u) && u == State(s.tracker, map[name := Client.Next(ClientOf(s.clients, name), move)])
  {
    AllowedAtEnd(INITIAL, steps, s);
    var step := Remote(name, move);
    assert Next(s, step).clients == map[name := Client.Next(ClientOf(s.clients, name), move)];
    steps', u := Then(steps, s, step);
  }

  lemma ThenAnswered(steps: seq<Step>, s: State, name: Name, move: Client.Step<Tag>, work: Tracker.Step)
      returns (steps': seq<Step>, u: State)
    requires Reaches(steps, s) && s.clients.Keys <= {name} && (move.Hit? || move.Store?)
    requires Client.Enabled(ClientOf(s.clients, name), move)
    requires Tracker.Enabled(s.tracker, work) && Uses(s.tracker, work, name)
    requires HandsOut(Client.Next(ClientOf(s.clients, name), move), work.tag)
    requires OneRegistration(Tracker.Next(s.tracker, work))
    ensures Reaches(steps', u)
    ensures u == State(Tracker.Next(s.tracker, work), map[name := Client.Next(ClientOf(s.clients, name), move)])
  {
    AllowedAtEnd(INITIAL, steps, s);
    var step := Answered(name, move, work);
    assert Next(s, step).clients == map[name := Client.Next(ClientOf(s.clients, name), move)];
    steps', u := Then(steps, s, step);
  }

  // ----- one subscriber, one release -----

  function Row(key: Key, tag: Tag): map<Name, Repository> {
    map[key.repo := Repository(0, tag)]
  }

  function OneSubscriber(key: Key, token: Token, tag: Tag): Tables {
    Tables(Row(key, tag), map[Place(0, key.email) := token])
  }

  lemma LookedUp(key: Key, token: Token, v1: Tag) returns (steps: seq<Step>, s: State)
    ensures Reaches(steps, s) && s.tracker.tables == Tables(map[], map[]) && s.tracker.outbox == Outbox.INITIAL
    ensures s.tracker.names == map[]
    ensures s.tracker.tasks == map[0 := Tracker.Missing(key.repo, Tracker.Handler(key, token))]
    ensures s.clients == map[key.repo := Reading(Published([v1]), None, None, [])]
  {
    steps, s := [], INITIAL;
    assert [] + [Client.Version(v1, 0)] == Published([v1]);
    steps, s := ThenRemote(steps, s, key.repo, Client.Publish(v1));
    steps, s := ThenWork(steps, s, Tracker.Receive(0, Activated(key, token)));
    steps, s := ThenWork(steps, s, Tracker.Find(0));
  }

  lemma Asked(key: Key, token: Token, v1: Tag) returns (steps: seq<Step>, s: State)
    ensures Reaches(steps, s) && s.tracker.tables == Tables(map[], map[]) && s.tracker.outbox == Outbox.INITIAL
    ensures s.tracker.names == map[]
    ensures s.tracker.tasks == map[0 := Tracker.Missing(key.repo, Tracker.Handler(key, token))]
    ensures s.clients == map[key.repo := Reading(Published([v1]), None, Some(Client.Pending(0, 0)), [])]
  {
    steps, s := LookedUp(key, token, v1);
    steps, s := ThenRemote(steps, s, key.repo, Client.Ask);
  }

  lemma Fetched(key: Key, token: Token, v1: Tag) returns (steps: seq<Step>, s: State)
    ensures Reaches(steps, s) && s.tracker.tables == Tables(map[], map[]) && s.tracker.outbox == Outbox.INITIAL
    ensures s.tracker.names == map[]
    ensures s.tracker.tasks == map[0 := Tracker.Creating(key.repo, Tracker.Handler(key, token), v1)]
    ensures s.clients == map[key.repo := Reading(Published([v1]), Some(Client.Entry(0, 0, 0)), None, [READ])]
  {
    steps, s := Asked(key, token, v1);
    assert [] + [READ] == [READ];
    steps, s := ThenAnswered(steps, s, key.repo, Client.Store, Tracker.Fetch(0, v1));
  }

  lemma Registered(key: Key, token: Token, v1: Tag) returns (steps: seq<Step>, s: State)
    ensures Reaches(steps, s) && s.tracker.tables == Tables(Row(key, v1), map[]) && s.tracker.outbox == Outbox.INITIAL
    ensures s.tracker.tasks == map[0 := Tracker.Upserting(key, token, 0)]
    ensures s.clients == map[key.repo := Reading(Published([v1]), Some(Client.Entry(0, 0, 0)), None, [READ])]
  {
    steps, s := Fetched(key, token, v1);
    steps, s := ThenWork(steps, s, Tracker.Create(0, 0));
  }

  lemma Subscribed(key: Key, token: Token, v1: Tag) returns (steps: seq<Step>, s: State)
    ensures Reaches(steps, s) && s.tracker.tables == OneSubscriber(key, token, v1)
    ensures s.tracker.tasks == map[] && s.tracker.outbox == Outbox.INITIAL
    ensures s.clients == map[key.repo := Reading(Published([v1]), Some(Client.Entry(0, 0, 0)), None, [READ])]
  {
    steps, s := Registered(key, token, v1);
    assert s.tracker.tables.repositories[key.repo].id == 0;
    steps, s := ThenWork(steps, s, Tracker.Upsert(0));
    assert s.tracker.tables.subscriptions == map[Place(0, key.email) := token];
    steps, s := ThenWork(steps, s, Tracker.Stop(0));
    assert s.tracker.tasks == map[];
  }

  // ----- both list, then both release -----

  function Todo(key: Key, tag: Tag): seq<Tracker.Snapshot> {
    [Tracker.Snapshot(0, key.repo, tag)]
  }

  lemma Outdated(key: Key, token: Token, v1: Tag, v2: Tag) returns (steps: seq<Step>, s: State)
    requires v1 != v2
    ensures Reaches(steps, s) && s.tracker.tables == OneSubscriber(key, token, v1) && s.tracker.outbox == Outbox.INITIAL
    ensures s.tracker.tasks == map[]
    ensures s.clients == map[key.repo := Reading(Published([v1, v2]), None, None, [READ])]
  {
    steps, s := Subscribed(key, token, v1);
    assert Published([v1]) + [Client.Version(v2, 0)] == Published([v1, v2]);
    steps, s := ThenRemote(steps, s, key.repo, Client.Publish(v2));
    steps, s := ThenRemote(steps, s, key.repo, Client.Evict);
  }

  /** Both passes list the repository before either of them moves it. */
  lemma Polled(key: Key, token: Token, v1: Tag, v2: Tag) returns (steps: seq<Step>, s: State)
    requires v1 != v2
    ensures Reaches(steps, s) && s.tracker.tables == OneSubscriber(key, token, v1) && s.tracker.outbox == Outbox.INITIAL
    ensures s.tracker.tasks == map[1 := Tracker.Polling(Todo(key, v1)), 2 := Tracker.Polling(Todo(key, v1))]
    ensures s.clients == map[key.repo := Reading(Published([v1, v2]), None, None, [READ])]
  {
    steps, s := Outdated(key, token, v1, v2);
    Active(s.tracker.tables, key, token, v1);
    steps, s := ThenWork(steps, s, Tracker.Poll(1, Todo(key, v1)));
    steps, s := ThenWork(steps, s, Tracker.Poll(2, Todo(key, v1)));
  }

  lemma Active(t: Tables, key: Key, token: Token, tag: Tag)
    requires t == OneSubscriber(key, token, tag)
    ensures Tracker.ListsActive(t, Todo(key, tag)) && Tracker.Lists(t, 0, [Subscriber(key.email, token)]) && HasId(t, 0)
  {
    assert Place(0, key.email) in t.subscriptions && t.repositories[key.repo].id == 0;
  }

  lemma AskedAgain(key: Key, token: Token, v1: Tag, v2: Tag) returns (steps: seq<Step>, s: State)
    requires v1 != v2
    ensures Reaches(steps, s) && s.tracker.tables == OneSubscriber(key, token, v1) && s.tracker.outbox == Outbox.INITIAL
    ensures s.tracker.tasks == map[1 := Tracker.Polling(Todo(key, v1)), 2 := Tracker.Polling(Todo(key, v1))]
    ensures s.clients == map[key.repo := Reading(Published([v1, v2]), None, Some(Client.Pending(1, 0)), [READ])]
  {
    steps, s := Polled(key, token, v1, v2);
    steps, s := ThenRemote(steps, s, key.repo, Client.Ask);
  }

  lemma DetectedOnce(key: Key, token: Token, v1: Tag, v2: Tag) returns (steps: seq<Step>, s: State)
    requires v1 != v2
    ensures Reaches(steps, s) && s.tracker.tables == OneSubscriber(key, token, v1) && s.tracker.outbox == Outbox.INITIAL
    ensures s.tracker.tasks == map[1 := Tracker.Detected(Todo(key, v1), v2), 2 := Tracker.Polling(Todo(key, v1))]
    ensures s.clients ==
      map[key.repo := Reading(Published([v1, v2]), Some(Client.Entry(1, 0, 0)), None, [READ, AGAIN])]
  {
    steps, s := AskedAgain(key, token, v1, v2);
    assert [READ] + [AGAIN] == [READ, AGAIN];
    steps, s := ThenAnswered(steps, s, key.repo, Client.Store, Tracker.Detect(1, v2));
  }

  lemma Detected(key: Key, token: Token, v1: Tag, v2: Tag) returns (steps: seq<Step>, s: State)
    requires v1 != v2
    ensures Reaches(steps, s) && s.tracker.tables == OneSubscriber(key, token, v1) && s.tracker.outbox == Outbox.INITIAL
    ensures s.tracker.tasks == map[1 := Tracker.Detected(Todo(key, v1), v2), 2 := Tracker.Detected(Todo(key, v1), v2)]
  {
    steps, s := DetectedOnce(key, token, v1, v2);
    steps, s := ThenAnswered(steps, s, key.repo, Client.Hit, Tracker.Detect(2, v2));
  }

  function Releasing(key: Key, token: Token, v1: Tag, v2: Tag): Tracker.Task {
    Tracker.Releasing(Todo(key, v1), v2, [Subscriber(key.email, token)])
  }

  lemma ReadOnce(key: Key, token: Token, v1: Tag, v2: Tag) returns (steps: seq<Step>, s: State)
    requires v1 != v2
    ensures Reaches(steps, s) && s.tracker.tables == OneSubscriber(key, token, v1) && s.tracker.outbox == Outbox.INITIAL
    ensures s.tracker.tasks == map[1 := Releasing(key, token, v1, v2), 2 := Tracker.Detected(Todo(key, v1), v2)]
  {
    steps, s := Detected(key, token, v1, v2);
    Active(s.tracker.tables, key, token, v1);
    steps, s := ThenWork(steps, s, Tracker.Read(1, [Subscriber(key.email, token)]));
  }

  lemma SubscribersRead(key: Key, token: Token, v1: Tag, v2: Tag) returns (steps: seq<Step>, s: State)
    requires v1 != v2
    ensures Reaches(steps, s) && s.tracker.tables == OneSubscriber(key, token, v1) && s.tracker.outbox == Outbox.INITIAL
    ensures s.tracker.tasks == map[1 := Releasing(key, token, v1, v2), 2 := Releasing(key, token, v1, v2)]
  {
    steps, s := ReadOnce(key, token, v1, v2);
    Active(s.tracker.tables, key, token, v1);
    steps, s := ThenWork(steps, s, Tracker.Read(2, [Subscriber(key.email, token)]));
  }

  lemma Retagged(key: Key, token: Token, v1: Tag, v2: Tag)
    ensures SetTag(OneSubscriber(key, token, v1), 0, v2).repositories == Row(key, v2)
  {
    assert SetTag(OneSubscriber(key, token, v1), 0, v2).repositories[key.repo] == Repository(0, v2);
  }

  lemma FirstIsPossible(t: Tracker.State, key: Key, token: Token, v1: Tag, v2: Tag, note: Message)
    requires HasId(t.tables, 0) && t.outbox == Outbox.INITIAL && 1 in t.tasks
    requires t.tasks[1] == Releasing(key, token, v1, v2)
    requires note == Tracker.Note(key.repo, v2, Subscriber(key.email, token))
    ensures Tracker.Enabled(t, Tracker.Release(1, [Outbox.Entry(0, note)]))
  {
  }

  /** The first of two releases, on its own. */
  lemma FirstRelease(t: Tracker.State, key: Key, token: Token, v1: Tag, v2: Tag, note: Message)
    requires t.tables == OneSubscriber(key, token, v1) && t.outbox == Outbox.INITIAL
    requires t.tasks == map[1 := Releasing(key, token, v1, v2), 2 := Releasing(key, token, v1, v2)]
    requires Tracker.Enabled(t, Tracker.Release(1, [Outbox.Entry(0, note)]))
    ensures
      var u := Tracker.Next(t, Tracker.Release(1, [Outbox.Entry(0, note)]));
      && u.tables.repositories == Row(key, v2) && u.outbox.insertLog == [Outbox.Entry(0, note)]
      && u.tasks == map[1 := Tracker.Announcing(Todo(key, v1), v2), 2 := Releasing(key, token, v1, v2)]
  {
    Retagged(key, token, v1, v2);
    assert [] + [Outbox.Entry(0, note)] == [Outbox.Entry(0, note)];
  }

  lemma FirstAnnounced(key: Key, token: Token, v1: Tag, v2: Tag, note: Message) returns (steps: seq<Step>, s: State)
    requires v1 != v2 && note == Tracker.Note(key.repo, v2, Subscriber(key.email, token))
    ensures Reaches(steps, s) && s.tracker.tables.repositories == Row(key, v2)
    ensures s.tracker.outbox.insertLog == [Outbox.Entry(0, note)]
    ensures s.tracker.tasks == map[1 := Tracker.Announcing(Todo(key, v1), v2), 2 := Releasing(key, token, v1, v2)]
  {
    hide Reaches;
    steps, s := SubscribersRead(key, token, v1, v2);
    Active(s.tracker.tables, key, token, v1);
    FirstIsPossible(s.tracker, key, token, v1, v2, note);
    FirstRelease(s.tracker, key, token, v1, v2, note);
    steps, s := ThenWork(steps, s, Tracker.Release(1, [Outbox.Entry(0, note)]));
  }

  /** For any subscriber and any two releases there is a run in which GitHub's tags never repeat, cached calls and
      registrations go one at a time, and the second release is announced to the subscriber twice: only the passes
      overlap. */
  lemma OverlappingPassesAnnounceTwice(key: Key, token: Token, v1: Tag, v2: Tag) returns (steps: seq<Step>, s: State)
    requires v1 != v2
    ensures Run(INITIAL, steps, s)
    ensures |s.tracker.outbox.insertLog| == 2
    ensures
      var log := s.tracker.outbox.insertLog;
      log[0].message == log[1].message == Notification(key, v2, token)
  {
    hide Run;
    var note := Tracker.Note(key.repo, v2, Subscriber(key.email, token));
    steps, s := FirstAnnounced(key, token, v1, v2, note);
    assert s.tracker.tables.repositories[key.repo].id == 0;
    steps, s := ThenWork(steps, s, Tracker.Release(2, [Outbox.Entry(1, note)]));
  }
}
