/** No release is announced twice: the tracker together with the cached GitHub client of every repository.

    GetOrCreate calls run one at a time, and so do cached calls for a repository. Everything else interleaves:
    deliveries, redeliveries, relays, release passes, failed commits, cache failures, deletion and re-registration of
    repositories. */
module Announcements {
  import opened Contracts
  import Outbox
  import opened TrackerTables
  import Tracker
  import Client = CachedReads

  datatype State = State(tracker: Tracker.State, clients: map<Name, Client.State<Tag>>)

  const INITIAL := State(Tracker.INITIAL, map[])

  datatype Step =
    | Remote(name: Name, move: Client.Step<Tag>)                          // GitHub, time, the cache, an unused answer
    | Answered(name: Name, move: Client.Step<Tag>, work: Tracker.Step)    // a cached call returns to the tracker
    | Work(work: Tracker.Step)                                        // anything else in the tracker

  function ClientOf(clients: map<Name, Client.State<Tag>>, name: Name): Client.State<Tag> {
    if name in clients then clients[name] else Client.Initial(Client.RELEASE_TTL)
  }

  /** The tracker step that uses GitHub's answer for `name`. */
  predicate Uses(t: Tracker.State, work: Tracker.Step, name: Name) {
    match work
    case Fetch(k, _) => k in t.tasks && t.tasks[k].Missing? && t.tasks[k].name == name
    case Detect(k, _) => k in t.tasks && t.tasks[k].Polling? && t.tasks[k].todo != [] && t.tasks[k].todo[0].name == name
    case _ => false
  }

  predicate HandsOut(c: Client.State<Tag>, tag: Tag) {
    0 <= Client.Last(c) < |c.timeline| && c.timeline[Client.Last(c)].value == tag
  }

  ghost predicate Enabled(s: State, step: Step) {
    match step
    case Remote(name, move) => Client.Enabled(ClientOf(s.clients, name), move)
    case Answered(name, move, work) =>
      && (move.Hit? || move.Store?) && Client.Enabled(ClientOf(s.clients, name), move)
      && Tracker.Enabled(s.tracker, work) && Uses(s.tracker, work, name)
      && HandsOut(Client.Next(ClientOf(s.clients, name), move), work.tag)
    case Work(work) => Tracker.Enabled(s.tracker, work) && !work.Fetch? && !work.Detect?
  }

  ghost function Next(s: State, step: Step): State
    requires Enabled(s, step)
  {
    match step
    case Remote(name, move) => s.(clients := s.clients[name := Client.Next(ClientOf(s.clients, name), move)])
    case Answered(name, move, work) =>
      State(Tracker.Next(s.tracker, work), s.clients[name := Client.Next(ClientOf(s.clients, name), move)])
    case Work(work) => s.(tracker := Tracker.Next(s.tracker, work))
  }

  // ----- the assumptions -----

  predicate Registering(t: Tracker.Task) {
    t.Looking? || t.Missing? || t.Creating?
  }

  predicate Passing(t: Tracker.Task) {
    t.Polling? || t.Detected? || t.Releasing? || t.Announcing?
  }

  ghost predicate OneRegistration(t: Tracker.State) {
    forall j, k :: j in t.tasks && k in t.tasks && Registering(t.tasks[j]) && Registering(t.tasks[k]) ==> j == k
  }

  ghost predicate NeverRepeats(timeline: seq<Client.Version<Tag>>) {
    forall i, j :: 0 <= i < j < |timeline| ==> timeline[i].value != timeline[j].value
  }

  ghost predicate Allowed(s: State) {
    OneRegistration(s.tracker) && forall n :: NeverRepeats(ClientOf(s.clients, n).timeline)
  }

  ghost predicate Run(s: State, steps: seq<Step>, u: State)
    decreases |steps|
  {
    Allowed(s) && if steps == [] then u == s else Enabled(s, steps[0]) && Run(Next(s, steps[0]), steps[1..], u)
  }

  /** If the snapshot's row is still there, it still has the snapshot's tag. */
  ghost predicate UpToDate(t: Tables, r: Tracker.Snapshot) {
    r.name in t.repositories && t.repositories[r.name].id == r.id ==> t.repositories[r.name].tag == r.tag
  }

  /** The release commits over a row that has moved since the pass listed it. */
  ghost predicate Stale(t: Tracker.State, work: Tracker.Step) {
    && work.Release? && work.task in t.tasks && t.tasks[work.task].Releasing? && t.tasks[work.task].todo != []
    && !UpToDate(t.tables, t.tasks[work.task].todo[0])
  }

  ghost predicate NeverStale(s: State, steps: seq<Step>)
    decreases |steps|
  {
    steps != [] && Enabled(s, steps[0]) ==>
      && (steps[0].Work? ==> !Stale(s.tracker, steps[0].work))
      && NeverStale(Next(s, steps[0]), steps[1..])
  }

  // ----- positions in GitHub's history -----

  ghost function Position(timeline: seq<Client.Version<Tag>>, tag: Tag): int {
    if exists i :: 0 <= i < |timeline| && timeline[i].value == tag
    then var i :| 0 <= i < |timeline| && timeline[i].value == tag; i
    else -1
  }

  /** The tag is one the client has handed out by now, or an older one. */
  ghost predicate Seen(c: Client.State<Tag>, tag: Tag) {
    0 <= Position(c.timeline, tag) <= Client.Last(c)
  }

  lemma PositionOf(timeline: seq<Client.Version<Tag>>, i: nat)
    requires NeverRepeats(timeline) && i < |timeline|
    ensures Position(timeline, timeline[i].value) == i
  {
  }

  /** A client's step keeps positions and moves on, and a value handed out is at least as recent as every tag seen. */
  lemma ClientMoves(c: Client.State<Tag>, move: Client.Step<Tag>, tag: Tag)
    requires Client.Inv(c) && Client.Enabled(c, move) && NeverRepeats(Client.Next(c, move).timeline)
    ensures Client.Inv(Client.Next(c, move)) && Client.Last(c) <= Client.Last(Client.Next(c, move))
    ensures Seen(c, tag) ==>
      Seen(Client.Next(c, move), tag) && Position(Client.Next(c, move).timeline, tag) == Position(c.timeline, tag)
  {
    Client.StepKeeps(c, move);
    var d := Client.Next(c, move);
    assert c.timeline <= d.timeline;
    if Seen(c, tag) {
      var i: nat := Position(c.timeline, tag);
      assert d.timeline[i].value == tag;
      PositionOf(d.timeline, i);
    }
  }

  // ----- the invariant -----

  ghost predicate Clients(clients: map<Name, Client.State<Tag>>) {
    forall n :: Client.Inv(ClientOf(clients, n))
  }

  function At(clients: map<Name, Client.State<Tag>>, n: Name): seq<Client.Version<Tag>> {
    ClientOf(clients, n).timeline
  }

  ghost predicate RowsSeen(s: State) {
    forall n :: n in s.tracker.tables.repositories ==>
      Seen(ClientOf(s.clients, n), s.tracker.tables.repositories[n].tag)
  }

  /** Every announced tag was seen, and the row of the repository, if there is one, is not behind it. */
  ghost predicate NoteOk(s: State, e: Outbox.Entry) {
    && e.message.Notification?
    && var n := e.message.key.repo;
       && Seen(ClientOf(s.clients, n), e.message.tag)
       && (n in s.tracker.tables.repositories ==>
             Position(At(s.clients, n), e.message.tag)
              <= Position(At(s.clients, n), s.tracker.tables.repositories[n].tag))
  }

  ghost predicate Notes(s: State) {
    forall e :: e in s.tracker.outbox.insertLog ==> NoteOk(s, e)
  }

  predicate SameNote(m: Message, m': Message) {
    m.Notification? && m'.Notification? && m.key == m'.key && m.tag == m'.tag
  }

  ghost predicate Once(log: seq<Outbox.Entry>) {
    forall i, j :: 0 <= i < j < |log| ==> !SameNote(log[i].message, log[j].message)
  }

  /** The tag listed is one the client had handed out. */
  ghost predicate Listed(clients: map<Name, Client.State<Tag>>, todo: seq<Tracker.Snapshot>) {
    forall r :: r in todo ==> Seen(ClientOf(clients, r.name), r.tag)
  }

  /** The new tag is newer than the one listed. */
  ghost predicate Newer(clients: map<Name, Client.State<Tag>>, r: Tracker.Snapshot, tag: Tag) {
    && Seen(ClientOf(clients, r.name), tag)
    && Position(At(clients, r.name), r.tag) < Position(At(clients, r.name), tag)
  }

  ghost predicate Covers(s: State, name: Name, tag: Tag) {
    && Seen(ClientOf(s.clients, name), tag)
    && (forall e :: e in s.tracker.outbox.insertLog && e.message.Notification? && e.message.key.repo == name ==>
          Position(At(s.clients, name), e.message.tag) <= Position(At(s.clients, name), tag))
  }

  ghost predicate TaskFine(s: State, task: Tracker.Task) {
    match task
    case Missing(name, _) => name !in s.tracker.tables.repositories
    case Creating(name, _, tag) => name !in s.tracker.tables.repositories && Covers(s, name, tag)
    case Polling(todo) => Listed(s.clients, todo)
    case Detected(todo, tag) => Listed(s.clients, todo) && (todo != [] ==> Newer(s.clients, todo[0], tag))
    case Releasing(todo, tag, subscribers) =>
      && Listed(s.clients, todo) && (todo != [] ==> Newer(s.clients, todo[0], tag))
      && (forall i, j :: 0 <= i < j < |subscribers| ==> subscribers[i].email != subscribers[j].email)
    case Announcing(todo, _) => Listed(s.clients, todo)
    case _ => true
  }

  ghost predicate Tasks(s: State) {
    forall k :: k in s.tracker.tasks ==> TaskFine(s, s.tracker.tasks[k])
  }

  ghost predicate Inv(s: State) {
    && Clients(s.clients) && Tracker.Sound(s.tracker) && RowsSeen(s) && Notes(s)
    && Once(s.tracker.outbox.insertLog) && Tasks(s)
  }

  // ----- GitHub and the cache -----

  ghost function Moved(s: State, name: Name, move: Client.Step<Tag>): State
    requires Client.Enabled(ClientOf(s.clients, name), move)
  {
    s.(clients := s.clients[name := Client.Next(ClientOf(s.clients, name), move)])
  }

  lemma MoveKeepsTag(s: State, name: Name, move: Client.Step<Tag>, n: Name, tag: Tag)
    requires Clients(s.clients) && Client.Enabled(ClientOf(s.clients, name), move)
    requires NeverRepeats(ClientOf(Moved(s, name, move).clients, name).timeline) && Seen(ClientOf(s.clients, n), tag)
    ensures Seen(ClientOf(Moved(s, name, move).clients, n), tag)
    ensures Position(At(Moved(s, name, move).clients, n), tag) == Position(At(s.clients, n), tag)
  {
    if n == name { ClientMoves(ClientOf(s.clients, name), move, tag); }
  }

  lemma MoveKeepsClients(s: State, name: Name, move: Client.Step<Tag>)
    requires Clients(s.clients) && Client.Enabled(ClientOf(s.clients, name), move)
    ensures Clients(Moved(s, name, move).clients)
  {
    var u := Moved(s, name, move);
    Client.StepKeeps(ClientOf(s.clients, name), move);
    forall n ensures Client.Inv(ClientOf(u.clients, n)) {
      assert ClientOf(u.clients, n) ==
        if n == name then Client.Next(ClientOf(s.clients, n), move) else ClientOf(s.clients, n);
    }
  }

  lemma MoveKeeps(s: State, name: Name, move: Client.Step<Tag>)
    requires Inv(s) && Client.Enabled(ClientOf(s.clients, name), move)
    requires NeverRepeats(ClientOf(Moved(s, name, move).clients, name).timeline)
    ensures Inv(Moved(s, name, move))
  {
    var u := Moved(s, name, move);
    MoveKeepsClients(s, name, move);
    forall n | n in s.tracker.tables.repositories
      ensures Seen(ClientOf(u.clients, n), s.tracker.tables.repositories[n].tag)
    {
      MoveKeepsTag(s, name, move, n, s.tracker.tables.repositories[n].tag);
    }
    forall e | e in u.tracker.outbox.insertLog ensures NoteOk(u, e) {
      assert NoteOk(s, e);
      var n := e.message.key.repo;
      MoveKeepsTag(s, name, move, n, e.message.tag);
      if n in s.tracker.tables.repositories { MoveKeepsTag(s, name, move, n, s.tracker.tables.repositories[n].tag); }
    }
    forall k | k in u.tracker.tasks ensures TaskFine(u, u.tracker.tasks[k]) {
      MoveKeepsTask(s, name, move, s.tracker.tasks[k]);
    }
  }

  lemma MoveKeepsListed(s: State, name: Name, move: Client.Step<Tag>, todo: seq<Tracker.Snapshot>)
    requires Clients(s.clients) && Client.Enabled(ClientOf(s.clients, name), move) && Listed(s.clients, todo)
    requires NeverRepeats(ClientOf(Moved(s, name, move).clients, name).timeline)
    ensures Listed(Moved(s, name, move).clients, todo)
    ensures forall r, tag :: r in todo && Newer(s.clients, r, tag) ==> Newer(Moved(s, name, move).clients, r, tag)
  {
    var u := Moved(s, name, move);
    forall r | r in todo ensures Seen(ClientOf(u.clients, r.name), r.tag) {
      MoveKeepsTag(s, name, move, r.name, r.tag);
    }
    forall r, tag | r in todo && Newer(s.clients, r, tag) ensures Newer(u.clients, r, tag) {
      MoveKeepsTag(s, name, move, r.name, r.tag);
      MoveKeepsTag(s, name, move, r.name, tag);
    }
  }

  lemma MoveKeepsCovers(s: State, name: Name, move: Client.Step<Tag>, n: Name, tag: Tag)
    requires Clients(s.clients) && Notes(s) && Client.Enabled(ClientOf(s.clients, name), move) && Covers(s, n, tag)
    requires NeverRepeats(ClientOf(Moved(s, name, move).clients, name).timeline)
    ensures Covers(Moved(s, name, move), n, tag)
  {
    var u := Moved(s, name, move);
    MoveKeepsTag(s, name, move, n, tag);
    forall e | e in u.tracker.outbox.insertLog && e.message.Notification? && e.message.key.repo == n
      ensures Position(At(u.clients, n), e.message.tag) <= Position(At(u.clients, n), tag)
    {
      assert NoteOk(s, e);
      MoveKeepsTag(s, name, move, n, e.message.tag);
    }
  }

  lemma MoveKeepsTask(s: State, name: Name, move: Client.Step<Tag>, task: Tracker.Task)
    requires Clients(s.clients) && Notes(s) && Client.Enabled(ClientOf(s.clients, name), move)
    requires NeverRepeats(ClientOf(Moved(s, name, move).clients, name).timeline) && TaskFine(s, task)
    ensures TaskFine(Moved(s, name, move), task)
  {
    if task.Creating? { MoveKeepsCovers(s, name, move, task.name, task.tag); }
    if Passing(task) { MoveKeepsListed(s, name, move, task.todo); }
  }

  // ----- the tracker -----

  ghost function Worked(s: State, work: Tracker.Step): State
    requires Tracker.Enabled(s.tracker, work)
  {
    s.(tracker := Tracker.Next(s.tracker, work))
  }

  /** Steps that leave the repository rows and the announcements alone. */
  predicate Quiet(work: Tracker.Step) {
    !work.Create? && !work.Drop? && !work.Release?
  }

  lemma QuietFrame(t: Tracker.State, work: Tracker.Step)
    requires Tracker.Enabled(t, work) && Quiet(work)
    ensures Tracker.Next(t, work).tables.repositories == t.tables.repositories
    ensures Tracker.Next(t, work).outbox.insertLog == t.outbox.insertLog
  {
  }

  lemma SameTask(s: State, u: State, task: Tracker.Task)
    requires u.clients == s.clients && u.tracker.tables.repositories == s.tracker.tables.repositories
    requires u.tracker.outbox.insertLog == s.tracker.outbox.insertLog
    ensures TaskFine(u, task) <==> TaskFine(s, task)
  {
  }

  /** Where a quiet step moves a handler or a GetOrCreate call. */
  lemma HandlerFine(s: State, work: Tracker.Step)
    requires Tasks(s) && Tracker.Enabled(s.tracker, work) && Quiet(work) && !work.Relay? && !work.Stop?
    requires !(work.Poll? || work.Detect? || work.Read? || work.Announce? || work.Skip?)
    requires work.Fetch? ==> Covers(s, s.tracker.tasks[work.task].name, work.tag)
    ensures TaskFine(s, Tracker.Next(s.tracker, work).tasks[work.task])
  {
    if work.task in s.tracker.tasks { assert TaskFine(s, s.tracker.tasks[work.task]); }
  }

  lemma RestListed(clients: map<Name, Client.State<Tag>>, todo: seq<Tracker.Snapshot>)
    requires todo != [] && Listed(clients, todo)
    ensures Listed(clients, todo[1..])
  {
    assert forall r :: r in todo[1..] ==> r in todo;
  }

  lemma FreshIsListed(s: State, todo: seq<Tracker.Snapshot>)
    requires RowsSeen(s) && Tracker.ListsActive(s.tracker.tables, todo)
    ensures Listed(s.clients, todo)
  {
    forall r | r in todo ensures Seen(ClientOf(s.clients, r.name), r.tag) {
      assert Tracker.IsActive(s.tracker.tables, r);
    }
  }

  /** Where it moves a release pass. */
  lemma PassFine(s: State, work: Tracker.Step)
    requires Tasks(s) && RowsSeen(s) && Tracker.Enabled(s.tracker, work) && Quiet(work)
    requires work.Poll? || work.Detect? || work.Read? || work.Announce? || work.Skip?
    requires work.Detect? ==> Newer(s.clients, s.tracker.tasks[work.task].todo[0], work.tag)
    ensures TaskFine(s, Tracker.Next(s.tracker, work).tasks[work.task])
  {
    if work.Poll? {
      FreshIsListed(s, work.todo);
    } else {
      assert TaskFine(s, s.tracker.tasks[work.task]);
      RestListed(s.clients, s.tracker.tasks[work.task].todo);
    }
  }

  lemma OtherTask(t: Tracker.State, work: Tracker.Step, k: nat)
    requires Tracker.Enabled(t, work) && k in Tracker.Next(t, work).tasks && (work.Relay? || k != work.task)
    ensures k in t.tasks && Tracker.Next(t, work).tasks[k] == t.tasks[k]
  {
  }

  lemma QuietKeepsTask(s: State, work: Tracker.Step, k: nat)
    requires Tasks(s) && RowsSeen(s) && Tracker.Enabled(s.tracker, work) && Quiet(work)
    requires work.Fetch? ==> Covers(s, s.tracker.tasks[work.task].name, work.tag)
    requires work.Detect? ==> Newer(s.clients, s.tracker.tasks[work.task].todo[0], work.tag)
    requires k in Tracker.Next(s.tracker, work).tasks
    ensures TaskFine(s, Tracker.Next(s.tracker, work).tasks[k])
  {
    if work.Relay? || k != work.task {
      OtherTask(s.tracker, work, k);
      assert TaskFine(s, s.tracker.tasks[k]);
    } else if work.Poll? || work.Detect? || work.Read? || work.Announce? || work.Skip? {
      PassFine(s, work);
    } else {
      HandlerFine(s, work);
    }
  }

  lemma QuietKeeps(s: State, work: Tracker.Step)
    requires Inv(s) && Tracker.Enabled(s.tracker, work) && Quiet(work)
    requires work.Fetch? ==> Covers(s, s.tracker.tasks[work.task].name, work.tag)
    requires work.Detect? ==> Newer(s.clients, s.tracker.tasks[work.task].todo[0], work.tag)
    ensures Inv(Worked(s, work))
  {
    var u := Worked(s, work);
    Tracker.SoundKept(s.tracker, work);
    QuietFrame(s.tracker, work);
    forall e | e in u.tracker.outbox.insertLog ensures NoteOk(u, e) { assert NoteOk(s, e); }
    forall k | k in u.tracker.tasks ensures TaskFine(u, u.tracker.tasks[k]) {
      QuietKeepsTask(s, work, k);
      SameTask(s, u, u.tracker.tasks[k]);
    }
  }

  lemma TodoIsNamed(t: Tracker.State, k: nat, r: Tracker.Snapshot)
    requires Tracker.Sound(t) && k in t.tasks && Passing(t.tasks[k]) && r in t.tasks[k].todo
    ensures Tracker.Known(t, r.id, r.name)
  {
    var granted :| Tracker.OptedIn(t, granted);
    assert Tracker.TaskOk(t, t.tasks[k], granted);
  }

  lemma CreateKeepsTask(s: State, u: State, name: Name, task: Tracker.Task)
    requires TaskFine(s, task) && !Registering(task) && u.clients == s.clients
    ensures TaskFine(u, task)
  {
  }

  lemma CreateKeepsTasks(s: State, k: nat, id: nat)
    requires Tasks(s) && OneRegistration(s.tracker) && Tracker.Enabled(s.tracker, Tracker.Create(k, id))
    ensures Tasks(Worked(s, Tracker.Create(k, id)))
  {
    var u := Worked(s, Tracker.Create(k, id));
    forall j | j in u.tracker.tasks ensures TaskFine(u, u.tracker.tasks[j]) {
      if j != k {
        OtherTask(s.tracker, Tracker.Create(k, id), j);
        CreateKeepsTask(s, u, s.tracker.tasks[k].name, s.tracker.tasks[j]);
      }
    }
  }

  /** A repository comes back under a new id with a tag at least as new as anything announced for its name. */
  lemma CreateKeeps(s: State, k: nat, id: nat)
    requires Inv(s) && OneRegistration(s.tracker) && Tracker.Enabled(s.tracker, Tracker.Create(k, id))
    ensures Inv(Worked(s, Tracker.Create(k, id)))
  {
    var u := Worked(s, Tracker.Create(k, id));
    Tracker.SoundKept(s.tracker, Tracker.Create(k, id));
    CreateKeepsTasks(s, k, id);
    assert TaskFine(s, s.tracker.tasks[k]);
    forall e | e in u.tracker.outbox.insertLog ensures NoteOk(u, e) { assert NoteOk(s, e); }
  }

  lemma DropFrame(t: Tracker.State, k: nat)
    requires Tracker.Enabled(t, Tracker.Drop(k))
    ensures
      var u := Tracker.Next(t, Tracker.Drop(k));
      && u.outbox == t.outbox
      && forall n :: n in u.tables.repositories ==>
           n in t.tables.repositories && u.tables.repositories[n] == t.tables.repositories[n]
  {
  }

  lemma DropKeepsNotes(s: State, k: nat)
    requires RowsSeen(s) && Notes(s) && Tracker.Enabled(s.tracker, Tracker.Drop(k))
    ensures RowsSeen(Worked(s, Tracker.Drop(k))) && Notes(Worked(s, Tracker.Drop(k)))
  {
    var u := Worked(s, Tracker.Drop(k));
    DropFrame(s.tracker, k);
    forall e | e in u.tracker.outbox.insertLog ensures NoteOk(u, e) { assert NoteOk(s, e); }
  }

  lemma LessKeepsTask(s: State, u: State, task: Tracker.Task)
    requires TaskFine(s, task) && u.clients == s.clients && u.tracker.outbox == s.tracker.outbox
    requires forall n :: n in u.tracker.tables.repositories ==> n in s.tracker.tables.repositories
    ensures TaskFine(u, task)
  {
  }

  lemma DropKeepsTasks(s: State, k: nat)
    requires Tasks(s) && Tracker.Enabled(s.tracker, Tracker.Drop(k))
    ensures Tasks(Worked(s, Tracker.Drop(k)))
  {
    var u := Worked(s, Tracker.Drop(k));
    DropFrame(s.tracker, k);
    forall j | j in u.tracker.tasks ensures TaskFine(u, u.tracker.tasks[j]) {
      if j != k {
        OtherTask(s.tracker, Tracker.Drop(k), j);
        LessKeepsTask(s, u, s.tracker.tasks[j]);
      }
    }
  }

  lemma DropKeeps(s: State, k: nat)
    requires Inv(s) && Tracker.Enabled(s.tracker, Tracker.Drop(k))
    ensures Inv(Worked(s, Tracker.Drop(k)))
  {
    Tracker.SoundKept(s.tracker, Tracker.Drop(k));
    DropFrame(s.tracker, k);
    DropKeepsNotes(s, k);
    DropKeepsTasks(s, k);
  }

  /** The row a release moves: it has the snapshot's name, and its tag was older. */
  ghost predicate Outdated(s: State, c: Tracker.Task) {
    && c.Releasing? && c.todo != []
    && var r, rows := c.todo[0], s.tracker.tables.repositories;
       && r.name in rows && rows[r.name].id == r.id && (forall n :: n in rows && rows[n].id == r.id ==> n == r.name)
       && Seen(ClientOf(s.clients, r.name), c.tag)
       && Position(At(s.clients, r.name), rows[r.name].tag) < Position(At(s.clients, r.name), c.tag)
       && (forall i, j :: 0 <= i < j < |c.subscribers| ==> c.subscribers[i].email != c.subscribers[j].email)
  }

  lemma ReleasedRow(s: State, k: nat, entries: seq<Outbox.Entry>)
    requires Tracker.Sound(s.tracker) && Tasks(s) && Tracker.Enabled(s.tracker, Tracker.Release(k, entries))
    requires !Stale(s.tracker, Tracker.Release(k, entries))
    ensures Outdated(s, s.tracker.tasks[k])
  {
    var c, rows := s.tracker.tasks[k], s.tracker.tables.repositories;
    var r := c.todo[0];
    assert TaskFine(s, c);
    TodoIsNamed(s.tracker, k, r);
    var granted :| Tracker.OptedIn(s.tracker, granted);
    var n :| n in rows && rows[n].id == r.id;
    assert Tracker.Known(s.tracker, r.id, n);
  }

  /** What the release transaction of task `c` does. */
  ghost predicate Releases(s: State, u: State, c: Tracker.Task, entries: seq<Outbox.Entry>)
    requires c.Releasing? && c.todo != []
  {
    && u.clients == s.clients
    && u.tracker.tables == SetTag(s.tracker.tables, c.todo[0].id, c.tag)
    && u.tracker.outbox.insertLog == s.tracker.outbox.insertLog + entries
    && Tracker.FansOut(entries, c.todo[0].name, c.tag, c.subscribers)
  }

  lemma NewNotes(c: Tracker.Task, entries: seq<Outbox.Entry>, e: Outbox.Entry)
    requires c.Releasing? && c.todo != [] && Tracker.FansOut(entries, c.todo[0].name, c.tag, c.subscribers)
    requires e in entries
    ensures e.message.Notification? && e.message.key.repo == c.todo[0].name && e.message.tag == c.tag
  {
    var i :| 0 <= i < |entries| && entries[i] == e;
    assert e.message == Tracker.Note(c.todo[0].name, c.tag, c.subscribers[i]);
  }

  /** No earlier announcement for the repository has the new tag. */
  lemma ReleaseIsNews(s: State, u: State, c: Tracker.Task, entries: seq<Outbox.Entry>)
    requires Notes(s) && Once(s.tracker.outbox.insertLog) && Outdated(s, c) && Releases(s, u, c, entries)
    ensures Once(u.tracker.outbox.insertLog)
  {
    var log := s.tracker.outbox.insertLog;
    forall i, j | 0 <= i < j < |log + entries|
      ensures !SameNote((log + entries)[i].message, (log + entries)[j].message)
    {
      if i < |log| <= j {
        assert log[i] in log && NoteOk(s, log[i]);
        NewNotes(c, entries, entries[j - |log|]);
      } else if |log| <= i {
        assert c.subscribers[i - |log|].email != c.subscribers[j - |log|].email;
      }
    }
  }

  lemma ReleaseKeepsNotes(s: State, u: State, c: Tracker.Task, entries: seq<Outbox.Entry>)
    requires RowsSeen(s) && Notes(s) && Outdated(s, c) && Releases(s, u, c, entries)
    ensures RowsSeen(u) && Notes(u)
  {
    forall e | e in u.tracker.outbox.insertLog ensures NoteOk(u, e) {
      if e in s.tracker.outbox.insertLog { assert NoteOk(s, e); } else { NewNotes(c, entries, e); }
    }
  }

  lemma ReleaseKeepsTask(s: State, u: State, c: Tracker.Task, entries: seq<Outbox.Entry>, task: Tracker.Task)
    requires Outdated(s, c) && Releases(s, u, c, entries) && TaskFine(s, task)
    ensures TaskFine(u, task)
  {
    forall e | e in entries ensures e.message.Notification? && e.message.key.repo == c.todo[0].name {
      NewNotes(c, entries, e);
    }
  }

  lemma ReleaseKeepsTasks(s: State, k: nat, entries: seq<Outbox.Entry>)
    requires Tasks(s) && Tracker.Enabled(s.tracker, Tracker.Release(k, entries)) && Outdated(s, s.tracker.tasks[k])
    ensures Tasks(Worked(s, Tracker.Release(k, entries)))
  {
    var u, c := Worked(s, Tracker.Release(k, entries)), s.tracker.tasks[k];
    assert TaskFine(s, c) && u.tracker.tasks[k] == Tracker.Announcing(c.todo, c.tag);
    forall j | j in u.tracker.tasks ensures TaskFine(u, u.tracker.tasks[j]) {
      if j != k {
        OtherTask(s.tracker, Tracker.Release(k, entries), j);
        ReleaseKeepsTask(s, u, c, entries, s.tracker.tasks[j]);
      }
    }
  }

  lemma ReleaseKeeps(s: State, k: nat, entries: seq<Outbox.Entry>)
    requires Inv(s) && Tracker.Enabled(s.tracker, Tracker.Release(k, entries))
    requires !Stale(s.tracker, Tracker.Release(k, entries))
    ensures Inv(Worked(s, Tracker.Release(k, entries)))
  {
    var u, c := Worked(s, Tracker.Release(k, entries)), s.tracker.tasks[k];
    Tracker.SoundKept(s.tracker, Tracker.Release(k, entries));
    ReleasedRow(s, k, entries);
    assert Releases(s, u, c, entries);
    ReleaseIsNews(s, u, c, entries);
    ReleaseKeepsNotes(s, u, c, entries);
    ReleaseKeepsTasks(s, k, entries);
  }

  lemma WorkKeeps(s: State, work: Tracker.Step)
    requires Inv(s) && OneRegistration(s.tracker) && Tracker.Enabled(s.tracker, work) && !Stale(s.tracker, work)
    requires work.Fetch? ==> Covers(s, s.tracker.tasks[work.task].name, work.tag)
    requires work.Detect? ==> Newer(s.clients, s.tracker.tasks[work.task].todo[0], work.tag)
    ensures Inv(Worked(s, work))
  {
    if work.Create? {
      CreateKeeps(s, work.task, work.id);
    } else if work.Drop? {
      DropKeeps(s, work.task);
    } else if work.Release? {
      ReleaseKeeps(s, work.task, work.entries);
    } else {
      QuietKeeps(s, work);
    }
  }

  // ----- whole runs -----

  lemma HandedOutIsLatest(c: Client.State<Tag>, tag: Tag)
    requires NeverRepeats(c.timeline) && HandsOut(c, tag)
    ensures Seen(c, tag) && Position(c.timeline, tag) == Client.Last(c)
  {
    PositionOf(c.timeline, Client.Last(c));
  }

  /** An answer is as recent as everything announced for its repository ... */
  lemma AnswerCovers(s: State, name: Name, tag: Tag)
    requires Notes(s) && NeverRepeats(At(s.clients, name)) && HandsOut(ClientOf(s.clients, name), tag)
    ensures Covers(s, name, tag)
  {
    HandedOutIsLatest(ClientOf(s.clients, name), tag);
    forall e | e in s.tracker.outbox.insertLog && e.message.Notification? && e.message.key.repo == name
      ensures Position(At(s.clients, name), e.message.tag) <= Position(At(s.clients, name), tag)
    {
      assert NoteOk(s, e);
    }
  }

  /** ... and newer than a listed tag it differs from. */
  lemma AnswerIsNewer(s: State, r: Tracker.Snapshot, tag: Tag)
    requires Seen(ClientOf(s.clients, r.name), r.tag) && tag != r.tag
    requires NeverRepeats(At(s.clients, r.name)) && HandsOut(ClientOf(s.clients, r.name), tag)
    ensures Newer(s.clients, r, tag)
  {
    HandedOutIsLatest(ClientOf(s.clients, r.name), tag);
  }

  lemma FetchedKeeps(s: State, name: Name, move: Client.Step<Tag>, work: Tracker.Step)
    requires Inv(s) && OneRegistration(s.tracker) && Enabled(s, Answered(name, move, work)) && work.Fetch?
    requires NeverRepeats(At(Moved(s, name, move).clients, name))
    ensures Inv(Worked(Moved(s, name, move), work))
  {
    var u := Moved(s, name, move);
    MoveKeeps(s, name, move);
    AnswerCovers(u, name, work.tag);
    WorkKeeps(u, work);
  }

  lemma DetectedKeeps(s: State, name: Name, move: Client.Step<Tag>, work: Tracker.Step)
    requires Inv(s) && OneRegistration(s.tracker) && Enabled(s, Answered(name, move, work)) && work.Detect?
    requires NeverRepeats(At(Moved(s, name, move).clients, name))
    ensures Inv(Worked(Moved(s, name, move), work))
  {
    var u := Moved(s, name, move);
    MoveKeeps(s, name, move);
    assert TaskFine(u, u.tracker.tasks[work.task]);
    AnswerIsNewer(u, u.tracker.tasks[work.task].todo[0], work.tag);
    WorkKeeps(u, work);
  }

  lemma StepKeeps(s: State, step: Step)
    requires Inv(s) && Allowed(s) && Enabled(s, step) && Allowed(Next(s, step))
    requires step.Work? ==> !Stale(s.tracker, step.work)
    ensures Inv(Next(s, step))
  {
    match step
    case Remote(name, move) =>
      assert NeverRepeats(ClientOf(Next(s, step).clients, name).timeline);
      MoveKeeps(s, name, move);
    case Answered(name, move, work) =>
      assert NeverRepeats(ClientOf(Next(s, step).clients, name).timeline);
      if work.Fetch? { FetchedKeeps(s, name, move, work); } else { DetectedKeeps(s, name, move, work); }
    case Work(work) => WorkKeeps(s, work);
  }

  lemma AllowedFirst(s: State, steps: seq<Step>, u: State)
    requires Run(s, steps, u)
    ensures Allowed(s)
  {
  }

  lemma {:induction false} RunKeeps(s: State, steps: seq<Step>, u: State)
    requires Inv(s) && Run(s, steps, u) && NeverStale(s, steps)
    ensures Inv(u)
    decreases |steps|
  {
    if steps != [] {
      AllowedFirst(Next(s, steps[0]), steps[1..], u);
      StepKeeps(s, steps[0]);
      RunKeeps(Next(s, steps[0]), steps[1..], u);
    }
  }

  lemma InitialInv()
    ensures Inv(INITIAL)
  {
    assert Tracker.OptedIn(Tracker.INITIAL, {});
  }

  /** No tag is announced twice: if GitHub's latest tags never repeat and no release commits over a row that has moved
      since its pass listed it, at most one notification row for a repository name, an e-mail and a tag is ever
      inserted - across overlapping passes, cache expiry and failures, failed commits, and repositories that are
      deleted and registered again. */
  lemma NoTagIsAnnouncedTwice(steps: seq<Step>, s: State, i: nat, j: nat)
    requires Run(INITIAL, steps, s) && NeverStale(INITIAL, steps) && i < j < |s.tracker.outbox.insertLog|
    ensures !SameNote(s.tracker.outbox.insertLog[i].message, s.tracker.outbox.insertLog[j].message)
  {
    InitialInv();
    RunKeeps(INITIAL, steps, s);
  }

  lemma {:induction false} StaleStep(s: State, steps: seq<Step>, u: State) returns (n: nat, t: State)
    requires Run(s, steps, u) && !NeverStale(s, steps)
    ensures n < |steps| && Run(s, steps[..n], t) && Enabled(t, steps[n])
    ensures steps[n].Work? && Stale(t.tracker, steps[n].work)
    decreases |steps|
  {
    if steps[0].Work? && Stale(s.tracker, steps[0].work) {
      n, t := 0, s;
      assert steps[..0] == [];
    } else {
      n, t := StaleStep(Next(s, steps[0]), steps[1..], u);
      assert steps[..n + 1][1..] == steps[1..][..n];
      n := n + 1;
    }
  }

  /** So every announcement made twice has behind it a release that committed over a row that had moved since it was
      listed. */
  lemma DuplicateHasStaleRelease(steps: seq<Step>, s: State, i: nat, j: nat) returns (n: nat, t: State)
    requires Run(INITIAL, steps, s) && i < j < |s.tracker.outbox.insertLog|
    requires SameNote(s.tracker.outbox.insertLog[i].message, s.tracker.outbox.insertLog[j].message)
    ensures n < |steps| && Run(INITIAL, steps[..n], t) && Enabled(t, steps[n])
    ensures steps[n].Work? && Stale(t.tracker, steps[n].work)
  {
    if NeverStale(INITIAL, steps) { NoTagIsAnnouncedTwice(steps, s, i, j); }
    n, t := StaleStep(INITIAL, steps, s);
  }
}
