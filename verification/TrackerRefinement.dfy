/** The tracker's tables as a map from (e-mail, repository) to token when its handlers interleave, statement by
    statement: what each statement does to the map, and exactly which runs refine the map of their events. */
module TrackerRefinement {
  import opened Contracts
  import opened Replay
  import opened TrackerTables
  import TrackerReplica
  import opened Tracker

  // ----- one statement -----

  /** The map after a step: an upsert updates it, a removal takes its key away, and a deleted repository takes away
      every key it still has. */
  function Effect(s: State, m: Subscribers, step: Step): Subscribers {
    match step
    case Upsert(k) => if k in s.tasks && s.tasks[k].Upserting? then m[s.tasks[k].key := s.tasks[k].token] else m
    case Remove(k) => if k in s.tasks && s.tasks[k].Removing? then m - {s.tasks[k].key} else m
    case Drop(k) => if k in s.tasks && s.tasks[k].Dropping? then Without(m, s.tasks[k].key.repo) else m
    case _ => m
  }

  function Without(m: Subscribers, name: Name): Subscribers {
    map key | key in m && key.repo != name :: m[key]
  }

  lemma DropShows(t: Tables, m: Subscribers, name: Name)
    requires Shows(t, m)
    ensures Shows(DeleteRepository(t, name), Without(m, name))
  {
    TrackerReplica.DeleteRepositoryIsWellFormed(t, name);
  }

  lemma SetTagShows(t: Tables, m: Subscribers, id: nat, tag: Tag)
    requires Shows(t, m)
    ensures Shows(SetTag(t, id, tag), m)
  {
    var u := SetTag(t, id, tag);
    assert forall n :: n in t.repositories ==> n in u.repositories && u.repositories[n].id == t.repositories[n].id;
    forall p | p in u.subscriptions ensures HasId(u, p.repositoryId) {
      var n :| n in t.repositories && t.repositories[n].id == p.repositoryId;
      assert n in u.repositories;
    }
  }

  lemma UpsertShows(s: State, k: nat, granted: set<Grant>, m: Subscribers)
    requires OptedIn(s, granted) && Shows(s.tables, m) && Enabled(s, Upsert(k))
    ensures Shows(Next(s, Upsert(k)).tables, Effect(s, m, Upsert(k)))
  {
    var c := s.tasks[k];
    assert TaskOk(s, c, granted);
    var n :| n in s.tables.repositories && s.tables.repositories[n].id == c.id;
    assert Known(s, c.id, n);
    TrackerReplica.UpsertShows(s.tables, m, c.key, c.token);
  }

  lemma CreateShows(s: State, k: nat, id: nat, granted: set<Grant>, m: Subscribers)
    requires OptedIn(s, granted) && Shows(s.tables, m) && Enabled(s, Create(k, id))
    ensures Shows(Next(s, Create(k, id)).tables, m)
  {
    forall n | n in s.tables.repositories ensures s.tables.repositories[n].id != id {
      assert Known(s, s.tables.repositories[n].id, n);
    }
    TrackerReplica.CreateShows(s.tables, m, s.tasks[k].name, id, s.tasks[k].tag);
  }

  lemma OthersShowNothing(s: State, step: Step)
    requires Enabled(s, step) && !Writes(step) && !step.Release?
    ensures Next(s, step).tables == s.tables
  {
    if !step.Relay? { MoveFrame(s, step); }
  }

  /** Whatever is going on in the other tasks, every statement does to the tables what `Effect` does to the map. */
  lemma StepShows(s: State, step: Step, granted: set<Grant>, m: Subscribers)
    requires OptedIn(s, granted) && Shows(s.tables, m) && Enabled(s, step)
    ensures Shows(Next(s, step).tables, Effect(s, m, step))
  {
    hide Shows, OptedIn;
    match step
    case Create(k, id) => CreateShows(s, k, id, granted, m);
    case Upsert(k) => UpsertShows(s, k, granted, m);
    case Remove(k) => TrackerReplica.DeleteSubscriptionShows(s.tables, m, s.tasks[k].key);
    case Drop(k) => DropShows(s.tables, m, s.tasks[k].key.repo);
    case Release(k, _) => SetTagShows(s.tables, m, s.tasks[k].todo[0].id, s.tasks[k].tag);
    case _ => OthersShowNothing(s, step);
  }

  // ----- whole runs -----

  /** The event a step takes effect for. */
  function EventOf(s: State, step: Step): seq<Message> {
    match step
    case Upsert(k) =>
      if k in s.tasks && s.tasks[k].Upserting? then [Activated(s.tasks[k].key, s.tasks[k].token)] else []
    case Remove(k) => if k in s.tasks && s.tasks[k].Removing? then [Unsubscribed(s.tasks[k].key)] else []
    case _ => []
  }

  ghost function EventsOf(s: State, steps: seq<Step>): seq<Message>
    decreases |steps|
  {
    if steps == [] || !Enabled(s, steps[0]) then []
    else EventOf(s, steps[0]) + EventsOf(Next(s, steps[0]), steps[1..])
  }

  /** The state after the first `i` steps. */
  ghost predicate Moment(steps: seq<Step>, i: nat, t: State) {
    i <= |steps| && Run(INITIAL, steps[..i], t)
  }

  /** At every moment of the run the tables show what the events made of the empty map. */
  ghost predicate Refines(steps: seq<Step>) {
    forall i: nat, t :: Moment(steps, i, t) ==> Shows(t.tables, ApplyAll(map[], EventsOf(INITIAL, steps[..i])))
  }

  /** The step deletes a repository that has subscribers by now. */
  ghost predicate Cascades(t: State, step: Step) {
    && step.Drop? && step.task in t.tasks && t.tasks[step.task].Dropping?
    && HasSubscriptions(t.tables, t.tasks[step.task].key.repo)
  }

  ghost predicate NeverCascades(steps: seq<Step>) {
    forall i: nat, t :: Moment(steps, i, t) && i < |steps| ==> !Cascades(t, steps[i])
  }

  lemma {:induction false} LastStep(s: State, steps: seq<Step>, u: State) returns (t: State)
    requires Run(s, steps, u) && steps != []
    ensures Run(s, steps[..|steps| - 1], t) && Enabled(t, steps[|steps| - 1]) && u == Next(t, steps[|steps| - 1])
    ensures EventsOf(s, steps) == EventsOf(s, steps[..|steps| - 1]) + EventOf(t, steps[|steps| - 1])
    decreases |steps|
  {
    hide Enabled, Next, EventOf;
    if |steps| == 1 {
      t := s;
      assert Run(Next(s, steps[0]), steps[1..], u);
    } else {
      t := LastStep(Next(s, steps[0]), steps[1..], u);
      assert steps[1..][..|steps| - 2] == steps[..|steps| - 1][1..];
    }
  }

  lemma InitialIsSound()
    ensures Sound(INITIAL)
  {
    assert OptedIn(INITIAL, {});
  }

  lemma {:induction false} ReachableIsSound(steps: seq<Step>, u: State)
    requires Run(INITIAL, steps, u)
    ensures Sound(u)
    decreases |steps|
  {
    if steps == [] {
      InitialIsSound();
    } else {
      var t := LastStep(INITIAL, steps, u);
      ReachableIsSound(steps[..|steps| - 1], t);
      SoundKept(t, steps[|steps| - 1]);
    }
  }

  /** Without a cascade, the effect on the map is that of the event. */
  lemma EffectIsEvent(s: State, m: Subscribers, step: Step)
    requires Shows(s.tables, m) && Enabled(s, step) && !Cascades(s, step)
    ensures Effect(s, m, step) == if EventOf(s, step) == [] then m else Apply(m, EventOf(s, step)[0])
  {
    if step.Drop? { NothingToDrop(s.tables, m, s.tasks[step.task].key.repo); }
  }

  lemma OneEvent(events: seq<Message>, more: seq<Message>)
    requires |more| <= 1
    ensures
      var m := ApplyAll(map[], events);
      ApplyAll(map[], events + more) == if more == [] then m else Apply(m, more[0])
  {
    if more == [] {
      assert events + more == events;
    } else {
      assert more == [more[0]];
      ApplyOneMore(map[], events, more[0]);
    }
  }

  lemma NothingToDrop(t: Tables, m: Subscribers, name: Name)
    requires Shows(t, m)
    ensures Without(m, name) == m <==> !HasSubscriptions(t, name)
  {
    if HasSubscriptions(t, name) {
      var p :| p in t.subscriptions && p.repositoryId == t.repositories[name].id;
      assert Key(p.email, name) in m && Key(p.email, name) !in Without(m, name);
    } else {
      forall key | key in m ensures key.repo != name {
        assert Place(t.repositories[key.repo].id, key.email) in t.subscriptions;
      }
      assert Without(m, name) == m;
    }
  }

  lemma {:induction false} RefinesAtEnd(steps: seq<Step>, u: State)
    requires Run(INITIAL, steps, u) && NeverCascades(steps)
    ensures Shows(u.tables, ApplyAll(map[], EventsOf(INITIAL, steps)))
    decreases |steps|
  {
    if steps != [] {
      var rest, last := steps[..|steps| - 1], steps[|steps| - 1];
      var t := LastStep(INITIAL, steps, u);
      forall i: nat, v | Moment(rest, i, v) && i < |rest| ensures !Cascades(v, rest[i]) {
        assert rest[..i] == steps[..i] && Moment(steps, i, v);
      }
      RefinesAtEnd(rest, t);
      assert Moment(steps, |rest|, t);
      var m := ApplyAll(map[], EventsOf(INITIAL, rest));
      EffectIsEvent(t, m, last);
      OneEvent(EventsOf(INITIAL, rest), EventOf(t, last));
      ReachableIsSound(rest, t);
      var granted :| OptedIn(t, granted);
      StepShows(t, last, granted, m);
    }
  }

  lemma CascadeShows(t: State, step: Step, m: Subscribers)
    requires Sound(t) && Shows(t.tables, m) && Enabled(t, step) && Cascades(t, step)
    ensures !Shows(Next(t, step).tables, m)
  {
    var granted :| OptedIn(t, granted);
    StepShows(t, step, granted, m);
    NothingToDrop(t.tables, m, t.tasks[step.task].key.repo);
    var n := ShowsOneMap(Next(t, step).tables);
  }

  lemma CascadeBreaks(steps: seq<Step>, i: nat, t: State)
    requires Moment(steps, i, t) && i < |steps| && Enabled(t, steps[i]) && Cascades(t, steps[i])
    ensures !Refines(steps)
  {
    var m := ApplyAll(map[], EventsOf(INITIAL, steps[..i]));
    NextMoment(steps, i, t);
    assert EventsOf(INITIAL, steps[..i + 1]) == EventsOf(INITIAL, steps[..i]);
    ReachableIsSound(steps[..i], t);
    if Shows(t.tables, m) { CascadeShows(t, steps[i], m); }
  }

  lemma NextMoment(steps: seq<Step>, i: nat, t: State)
    requires Moment(steps, i, t) && i < |steps| && Enabled(t, steps[i])
    ensures Moment(steps, i + 1, Next(t, steps[i]))
    ensures EventsOf(INITIAL, steps[..i + 1]) == EventsOf(INITIAL, steps[..i]) + EventOf(t, steps[i])
  {
    assert steps[..i + 1] == steps[..i] + [steps[i]];
    RunThen(INITIAL, steps[..i], t, steps[i]);
  }

  /** Interleaved handlers: a run refines the map of its events if and only if no repository is deleted while it has
      subscribers, that is, no upsert gets in between a handler's check and its deletion. */
  lemma RefinesExactlyWithoutCascade(steps: seq<Step>, u: State)
    requires Run(INITIAL, steps, u)
    ensures Refines(steps) <==> NeverCascades(steps)
  {
    if NeverCascades(steps) {
      forall i: nat, t | Moment(steps, i, t) ensures Shows(t.tables, ApplyAll(map[], EventsOf(INITIAL, steps[..i]))) {
        forall j: nat, v | Moment(steps[..i], j, v) && j < i ensures !Cascades(v, steps[..i][j]) {
          assert steps[..i][..j] == steps[..j] && Moment(steps, j, v);
        }
        RefinesAtEnd(steps[..i], t);
      }
    } else {
      var i: nat, t :| Moment(steps, i, t) && i < |steps| && Cascades(t, steps[i]);
      MomentGoesOn(INITIAL, steps, u, i, t);
      CascadeBreaks(steps, i, t);
    }
  }

  lemma {:induction false} MomentGoesOn(s: State, steps: seq<Step>, u: State, i: nat, t: State)
    requires Run(s, steps, u) && i < |steps| && Run(s, steps[..i], t)
    ensures Enabled(t, steps[i])
    decreases i
  {
    if i > 0 {
      assert steps[..i][1..] == steps[1..][..i - 1];
      MomentGoesOn(Next(s, steps[0]), steps[1..], u, i - 1, t);
    }
  }

  lemma {:induction false} RunThen(s: State, steps: seq<Step>, u: State, step: Step)
    requires Run(s, steps, u) && Enabled(u, step)
    ensures Run(s, steps + [step], Next(u, step))
    ensures EventsOf(s, steps + [step]) == EventsOf(s, steps) + EventOf(u, step)
    decreases |steps|
  {
    hide Enabled, Next, EventOf;
    if steps == [] {
      assert ([] + [step])[1..] == [];
    } else {
      RunThen(Next(s, steps[0]), steps[1..], u, step);
      assert (steps + [step])[1..] == steps[1..] + [step];
    }
  }

  // ----- a run that cascades -----

  lemma Then(steps: seq<Step>, s: State, step: Step) returns (steps': seq<Step>, u: State)
    requires Run(INITIAL, steps, s) && Enabled(s, step)
    ensures steps' == steps + [step] && Run(INITIAL, steps', u) && u == Next(s, step)
  {
    steps', u := steps + [step], Next(s, step);
    RunThen(INITIAL, steps, s, step);
  }

  function Row(name: Name, tag: Tag): map<Name, Repository> {
    map[name := Repository(0, tag)]
  }

  /** A first activation has registered its repository. */
  lemma OneRegisters(key: Key, token: Token, tag: Tag) returns (steps: seq<Step>, s: State)
    ensures Run(INITIAL, steps, s) && s.tasks == map[0 := Upserting(key, token, 0)]
    ensures s.tables == Tables(Row(key.repo, tag), map[])
  {
    hide Run;
    steps, s := Then([], INITIAL, Receive(0, Activated(key, token)));
    steps, s := Then(steps, s, Find(0));
    assert s.tasks == map[0 := Missing(key.repo, Handler(key, token))];
    steps, s := Then(steps, s, Tracker.Step.Fetch(0, tag));
    steps, s := Then(steps, s, Tracker.Step.Create(0, 0));
  }

  /** One subscriber, whose unsubscription has arrived. */
  lemma OneLeaves(gone: Key, token: Token, tag: Tag) returns (steps: seq<Step>, s: State)
    ensures Run(INITIAL, steps, s) && s.tasks == map[1 := Removing(gone)]
    ensures s.tables == Tables(Row(gone.repo, tag), map[Place(0, gone.email) := token])
  {
    hide Run;
    steps, s := OneRegisters(gone, token, tag);
    assert s.tables.repositories[gone.repo].id == 0;
    steps, s := Then(steps, s, Tracker.Step.Upsert(0));
    steps, s := Then(steps, s, Stop(0));
    steps, s := Then(steps, s, Receive(1, Unsubscribed(gone)));
  }

  /** The check has found nobody else when another subscriber's activation arrives ... */
  lemma OneChecks(gone: Key, joined: Key, token: Token, tag: Tag) returns (steps: seq<Step>, s: State)
    requires gone.repo == joined.repo
    ensures Run(INITIAL, steps, s) && s.tables == Tables(Row(gone.repo, tag), map[])
    ensures s.tasks == map[1 := Dropping(gone), 2 := Looking(joined.repo, Handler(joined, token))]
  {
    hide Run;
    steps, s := OneLeaves(gone, token, tag);
    steps, s := Then(steps, s, Remove(1));
    assert s.tables == Tables(Row(gone.repo, tag), map[]);
    steps, s := Then(steps, s, Check(1));
    steps, s := Then(steps, s, Receive(2, Activated(joined, token)));
  }

  /** ... and is stored. */
  lemma OneJoins(gone: Key, joined: Key, token: Token, tag: Tag) returns (steps: seq<Step>, s: State)
    requires gone.repo == joined.repo
    ensures Run(INITIAL, steps, s) && 1 in s.tasks && s.tasks[1] == Dropping(gone)
    ensures s.tables == Tables(Row(gone.repo, tag), map[Place(0, joined.email) := token])
  {
    steps, s := OneChecks(gone, joined, token, tag);
    steps, s := Then(steps, s, Find(2));
    assert s.tasks == map[1 := Dropping(gone), 2 := Upserting(joined, token, 0)];
    assert s.tables.repositories[gone.repo].id == 0;
    steps, s := Then(steps, s, Tracker.Step.Upsert(2));
  }

  /** For any two subscribers of a repository there is a run in which the new one's activation takes effect, and the
      deletion of the repository that the other's unsubscription had decided on takes its row away. */
  lemma CascadeHappens(gone: Key, joined: Key, token: Token, tag: Tag) returns (steps: seq<Step>, u: State)
    requires gone.repo == joined.repo
    ensures Run(INITIAL, steps, u) && u.tables == Tables(map[], map[]) && !NeverCascades(steps) && !Refines(steps)
  {
    var s;
    steps, s := OneJoins(gone, joined, token, tag);
    var i := |steps|;
    assert Place(0, joined.email) in s.tables.subscriptions && HasSubscriptions(s.tables, gone.repo);
    assert steps + [Drop(1)] == (steps + [Drop(1)])[..i] + [Drop(1)] && (steps + [Drop(1)])[..i] == steps;
    steps, u := Then(steps, s, Drop(1));
    assert Moment(steps, i, s) && Cascades(s, steps[i]);
    RefinesExactlyWithoutCascade(steps, u);
    assert u.tables.repositories == map[] && u.tables.subscriptions == map[];
  }
}
