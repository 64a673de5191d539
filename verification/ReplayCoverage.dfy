/** What replaying the activation and unsubscription events says about the confirmed subscriptions.

    It covers them except for one race: the DELETE of an unsubscription finds no row, a Confirm of that subscription
    commits, and then the unsubscription commits its event all the same. */
module ReplayCoverage {
  import opened Contracts
  import TrackerTables
  import TrackerReplica
  import opened Replay
  import opened System
  import opened SystemInvariant
  import opened Guarantees

  /** The activation and unsubscription events of a log, in commit order. */
  function Events(ms: seq<Message>): seq<Message>
    decreases |ms|
  {
    if ms == [] then []
    else
      Events(ms[..|ms| - 1])
      + if ms[|ms| - 1].Activated? || ms[|ms| - 1].Unsubscribed? then [ms[|ms| - 1]] else []
  }

  lemma {:induction false} OnlyEventsMatter(m: Subscribers, ms: seq<Message>)
    ensures ApplyAll(m, Events(ms)) == ApplyAll(m, ms)
    decreases |ms|
  {
    if ms != [] {
      var rest, last := ms[..|ms| - 1], ms[|ms| - 1];
      OnlyEventsMatter(m, rest);
      if last.Activated? || last.Unsubscribed? {
        ApplyOneMore(m, Events(rest), last);
      } else {
        assert Events(ms) == Events(rest);
      }
    }
  }

  predicate Maps(m: Subscribers, key: Key, token: Token) {
    key in m && m[key] == token
  }

  /** Replaying the committed events in commit order, each any number of times in a row, maps a confirmed subscription
      to its current token if and only if no removal that had found no row has committed its event since the Confirm. */
  lemma ReplayCoversExactly(s: State, again: seq<Message>, key: Key)
    requires Reachable(s) && Stutters(Events(Messages(s.outbox.insertLog)), again) && IsConfirmed(s, key)
    ensures Maps(ApplyAll(map[], again), key, s.tables.subscriptions[key].token) <==> key !in s.emptied
  {
    InvHolds(s);
    StutteringIsHarmless(map[], Events(Messages(s.outbox.insertLog)), again);
    OnlyEventsMatter(map[], Messages(s.outbox.insertLog));
  }

  /** Across the two services: a tracker whose handlers ran one at a time and took effect in that order holds the
      current token of a confirmed subscription in its tables, under exactly the same condition. */
  lemma TrackerCoversExactly(s: State, ds: seq<TrackerReplica.Delivery>, u: TrackerTables.Tables, key: Key)
    requires Reachable(s) && TrackerReplica.Handled(TrackerTables.Tables(map[], map[]), ds, u)
    requires Stutters(Events(Messages(s.outbox.insertLog)), TrackerReplica.Effects(ds)) && IsConfirmed(s, key)
    ensures TrackerMaps(u, key, s.tables.subscriptions[key].token) <==> key !in s.emptied
  {
    TrackerReplica.RefinesMap(TrackerTables.Tables(map[], map[]), map[], ds, u);
    ReplayCoversExactly(s, TrackerReplica.Effects(ds), key);
  }

  predicate TrackerMaps(u: TrackerTables.Tables, key: Key, token: Token) {
    && key.repo in u.repositories
    && var place := TrackerTables.Place(u.repositories[key.repo].id, key.email);
       place in u.subscriptions && u.subscriptions[place] == token
  }

  // ----- whole runs -----

  ghost predicate Covers(s: State) {
    var m := ApplyAll(map[], Messages(s.outbox.insertLog));
    forall key :: IsConfirmed(s, key) ==> Maps(m, key, s.tables.subscriptions[key].token)
  }

  /** The unsubscription's DELETE had found no row, but by now a confirmed one is there: it is about to commit an event
      that takes back a confirmation it never saw. */
  ghost predicate TakesBack(s: State, step: Step) {
    && step.Api? && step.call.RemoveCommit? && step.call.request in s.requests
    && s.requests[step.call.request].Removing? && !s.requests[step.call.request].found
    && IsConfirmed(s, s.requests[step.call.request].key)
  }

  /** Replay covers every confirmed row at every moment of the run. */
  ghost predicate CoversThroughout(steps: seq<Step>) {
    forall i: nat, t :: Moment(INITIAL, steps, i, t) ==> Covers(t)
  }

  ghost predicate NeverTakesBack(s: State, steps: seq<Step>) {
    forall i: nat, t :: Earlier(s, steps, i, t) ==> !TakesBack(t, steps[i])
  }

  ghost predicate Clean(s: State) {
    forall key :: IsConfirmed(s, key) ==> key !in s.emptied
  }

  lemma CleanCovers(s: State)
    requires Inv(s)
    ensures Clean(s) <==> Covers(s)
  {
    if !Clean(s) {
      var key :| IsConfirmed(s, key) && key in s.emptied;
      assert !Maps(ApplyAll(map[], Messages(s.outbox.insertLog)), key, s.tables.subscriptions[key].token);
    }
  }

  lemma CallKeepsClean(s: State, call: Call)
    requires CallEnabled(s, call) && Clean(s) && !TakesBack(s, Api(call))
    ensures Clean(CallNext(s, call))
  {
    var u := CallNext(s, call);
    forall key | IsConfirmed(u, key) ensures key !in u.emptied {
      if IsConfirmed(s, key) { assert key !in s.emptied; }
    }
  }

  lemma ReplyKeepsClean(s: State, move: ReplyMove)
    requires ReplyEnabled(s, move) && Clean(s)
    ensures Clean(ReplyNext(s, move))
  {
    var u := ReplyNext(s, move);
    ReplyFrame(s, move);
    forall key | IsConfirmed(u, key) ensures key !in u.emptied { assert IsConfirmed(s, key); }
  }

  lemma StepKeepsClean(s: State, step: Step)
    requires Enabled(s, step) && Clean(s) && !TakesBack(s, step)
    ensures Clean(Next(s, step))
  {
    match step
    case Api(call) => CallKeepsClean(s, call);
    case Orchestrate(move) => ReplyKeepsClean(s, move);
    case Notify(move) => MailFrame(s, move);
    case TrackerStep(_, _) =>
    case RelayStep(_) =>
  }

  lemma {:induction false} RunKeepsClean(s: State, steps: seq<Step>, u: State)
    requires Run(s, steps, u) && Clean(s) && NeverTakesBack(s, steps)
    ensures Clean(u)
    decreases |steps|
  {
    if steps != [] {
      assert Run(s, steps[..0], s);
      assert Earlier(s, steps, 0, s);
      StepKeepsClean(s, steps[0]);
      var next := Next(s, steps[0]);
      forall i: nat, t | Earlier(next, steps[1..], i, t) ensures !TakesBack(t, steps[1..][i]) {
        EarlierInRest(s, steps, i, t);
      }
      RunKeepsClean(next, steps[1..], u);
    }
  }

  lemma TakingBackUncovers(s: State, step: Step)
    requires Inv(s) && Enabled(s, step) && TakesBack(s, step)
    ensures !Covers(Next(s, step))
  {
    var u, key := Next(s, step), s.requests[step.call.request].key;
    assert IsConfirmed(u, key) && key in u.emptied;
    assert ReplayIsExact(u) by { StepKeeps(s, step); }
  }

  lemma MomentReachable(steps: seq<Step>, i: nat, t: State)
    requires Moment(INITIAL, steps, i, t)
    ensures Inv(t)
  {
    assert Reachable(t);
    InvHolds(t);
  }

  lemma CoversWithoutTakingBack(steps: seq<Step>, i: nat, t: State)
    requires NeverTakesBack(INITIAL, steps) && Moment(INITIAL, steps, i, t)
    ensures Covers(t)
  {
    forall j: nat, v | Earlier(INITIAL, steps[..i], j, v) ensures !TakesBack(v, steps[..i][j]) {
      assert steps[..i][..j] == steps[..j];
      assert Earlier(INITIAL, steps, j, v);
    }
    RunKeepsClean(INITIAL, steps[..i], t);
    MomentReachable(steps, i, t);
    CleanCovers(t);
  }

  lemma NextMoment(steps: seq<Step>, i: nat, t: State)
    requires Earlier(INITIAL, steps, i, t)
    ensures Moment(INITIAL, steps, i + 1, Next(t, steps[i]))
  {
    RunThen(INITIAL, steps[..i], t, steps[i]);
    assert steps[..i + 1] == steps[..i] + [steps[i]];
  }

  lemma UncoveredAfter(steps: seq<Step>, i: nat, t: State)
    requires Earlier(INITIAL, steps, i, t) && TakesBack(t, steps[i])
    ensures Moment(INITIAL, steps, i + 1, Next(t, steps[i])) && !Covers(Next(t, steps[i]))
  {
    MomentReachable(steps, i, t);
    TakingBackUncovers(t, steps[i]);
    NextMoment(steps, i, t);
  }

  /** Exactly when replay covers: at every moment of a run the confirmed rows are covered if and only if the run never
      takes a confirmation back, that is, no removal whose DELETE had found no row commits while a confirmed row of its
      key is there. */
  lemma CoversExactlyWithoutTakingBack(steps: seq<Step>, s: State)
    requires Run(INITIAL, steps, s)
    ensures CoversThroughout(steps) <==> NeverTakesBack(INITIAL, steps)
  {
    if NeverTakesBack(INITIAL, steps) {
      forall i: nat, t | Moment(INITIAL, steps, i, t) ensures Covers(t) { CoversWithoutTakingBack(steps, i, t); }
    } else {
      var i: nat, t :| Earlier(INITIAL, steps, i, t) && TakesBack(t, steps[i]);
      UncoveredAfter(steps, i, t);
    }
  }
}
