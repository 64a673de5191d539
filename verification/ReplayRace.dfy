/** The race behind every confirmed subscription that replay forgets, and runs in which it happens. */
module ReplayRace {
  import opened Contracts
  import Outbox
  import Tracker
  import opened System
  import opened SystemInvariant
  import opened Guarantees
  import opened ReplayCoverage

  // ----- the race behind it -----

  ghost predicate ConfirmsRow(t: State, step: Step, key: Key) {
    && step.Api? && step.call.ConfirmCommit? && step.call.request in t.requests
    && t.requests[step.call.request].Storing? && t.requests[step.call.request].key == key
  }

  lemma {:induction false} FirstConfirmed(s: State, steps: seq<Step>, u: State, key: Key) returns (j: nat, v: State)
    requires Run(s, steps, u) && !IsConfirmed(s, key) && IsConfirmed(u, key)
    ensures Earlier(s, steps, j, v) && ConfirmsRow(v, steps[j], key)
    decreases |steps|
  {
    var next := Next(s, steps[0]);
    if IsConfirmed(next, key) {
      j, v := 0, s;
      assert Run(s, steps[..0], s);
      ConfirmedBy(s, steps[0], key);
    } else {
      j, v := FirstConfirmed(next, steps[1..], u, key);
      EarlierInRest(s, steps, j, v);
      j := j + 1;
    }
  }

  lemma ConfirmedBy(s: State, step: Step, key: Key)
    requires Enabled(s, step) && !IsConfirmed(s, key) && IsConfirmed(Next(s, step), key)
    ensures ConfirmsRow(s, step, key)
  {
    match step
    case Api(call) => CallConfirms(s, call, key);
    case Orchestrate(move) => ReplyConfirmsNothing(s, move, key);
    case Notify(move) => MailFrame(s, move);
    case TrackerStep(_, _) =>
    case RelayStep(_) =>
  }

  lemma ReplyConfirmsNothing(s: State, move: ReplyMove, key: Key)
    requires ReplyEnabled(s, move)
    ensures IsConfirmed(ReplyNext(s, move), key) ==> IsConfirmed(s, key)
  {
  }

  lemma CallConfirms(s: State, call: Call, key: Key)
    requires CallEnabled(s, call) && !IsConfirmed(s, key) && IsConfirmed(CallNext(s, call), key)
    ensures ConfirmsRow(s, Api(call), key)
  {
  }

  ghost predicate Open(t: State, r: nat, key: Key) {
    r in t.requests && t.requests[r] == Removing(key, false)
  }

  ghost predicate OpenAfter(s: State, steps: seq<Step>, i: int, r: nat, key: Key) {
    forall k: nat, t :: k > i && Moment(s, steps, k, t) ==> Open(t, r, key)
  }

  lemma CallOpens(s: State, call: Call, r: nat, key: Key)
    requires CallEnabled(s, call) && Open(CallNext(s, call), r, key) && !Open(s, r, key)
    ensures call == Remove(r) && key !in s.tables.subscriptions
  {
  }

  /** A removal that found no row and is still open was opened by its DELETE, or has been open all along. */
  lemma OpenedBy(s: State, step: Step, r: nat, key: Key)
    requires Enabled(s, step) && Open(Next(s, step), r, key)
    ensures Open(s, r, key) || (step == Api(Remove(r)) && key !in s.tables.subscriptions)
  {
    match step
    case Api(call) => if !Open(s, r, key) { CallOpens(s, call, r, key); }
    case Orchestrate(move) => ReplyFrame(s, move);
    case Notify(move) => MailFrame(s, move);
    case TrackerStep(_, _) =>
    case RelayStep(_) =>
  }

  lemma OpenAfterInRest(s: State, steps: seq<Step>, i: int, r: nat, key: Key)
    requires steps != [] && Enabled(s, steps[0]) && OpenAfter(Next(s, steps[0]), steps[1..], i, r, key) && i >= -1
    ensures OpenAfter(s, steps, i + 1, r, key)
  {
    forall k: nat, t | k > i + 1 && Moment(s, steps, k, t) ensures Open(t, r, key) {
      assert steps[..k][1..] == steps[1..][..k - 1];
      assert Moment(Next(s, steps[0]), steps[1..], k - 1, t);
    }
  }

  lemma {:induction false} OpenSince(s: State, steps: seq<Step>, u: State, r: nat, key: Key) returns (i: int, t: State)
    requires Run(s, steps, u) && Open(u, r, key)
    ensures -1 <= i && OpenAfter(s, steps, i, r, key)
    ensures i >= 0 ==> Earlier(s, steps, i, t) && steps[i] == Api(Remove(r)) && key !in t.tables.subscriptions
    decreases |steps|
  {
    if steps == [] {
      i, t := -1, s;
    } else {
      var next := Next(s, steps[0]);
      i, t := OpenSince(next, steps[1..], u, r, key);
      OpenAfterInRest(s, steps, i, r, key);
      if i >= 0 {
        EarlierInRest(s, steps, i, t);
        i := i + 1;
      } else {
        assert Moment(next, steps[1..], 0, next);
        OpenedBy(s, steps[0], r, key);
        if Open(s, r, key) {
          forall k: nat, w | k > -1 && Moment(s, steps, k, w) ensures Open(w, r, key) { }
        } else {
          i, t := 0, s;
          assert Run(s, steps[..0], s);
        }
      }
    }
  }

  lemma AfterStep(s: State, steps: seq<Step>, u: State, i: nat, t: State)
    requires Run(s, steps, u) && Earlier(s, steps, i, t)
    ensures Run(s, steps[..i + 1], Next(t, steps[i])) && Run(Next(t, steps[i]), steps[i + 1..], u)
  {
    hide Run, Enabled, Next;
    RunThen(s, steps[..i], t, steps[i]);
    assert steps[..i + 1] == steps[..i] + [steps[i]];
    Onwards(s, steps[..i + 1], Next(t, steps[i]), steps[i + 1..], steps, u);
  }

  lemma Onwards(s: State, first: seq<Step>, t: State, rest: seq<Step>, all: seq<Step>, u: State)
    requires Run(s, first, t) && Run(s, all, u) && all == first + rest
    ensures Run(t, rest, u)
  {
    RunParts(s, first, t, rest, all, u);
  }

  lemma LaterEarlier(s: State, first: seq<Step>, t: State, rest: seq<Step>, j: nat, v: State)
    requires Run(s, first, t) && Earlier(t, rest, j, v)
    ensures Earlier(s, first + rest, |first| + j, v) && (first + rest)[|first| + j] == rest[j]
  {
    hide Run, Enabled, Next;
    RunConcat(s, first, t, rest[..j], v);
    assert (first + rest)[..|first| + j] == first + rest[..j];
  }

  /** Whenever a run is about to take a confirmation back, the removal was opened by a DELETE that found no row, and
      while it was open a Confirm of its key committed. */
  lemma RaceBehindTakingBack(steps: seq<Step>, s: State, r: nat, key: Key) returns (i: nat, t: State, j: nat, v: State)
    requires Run(INITIAL, steps, s) && Open(s, r, key) && IsConfirmed(s, key)
    ensures Earlier(INITIAL, steps, i, t) && steps[i] == Api(Remove(r)) && key !in t.tables.subscriptions
    ensures i < j && Earlier(INITIAL, steps, j, v) && ConfirmsRow(v, steps[j], key)
    ensures OpenAfter(INITIAL, steps, i, r, key)
  {
    i, t := OpenedAt(steps, s, r, key);
    j, v := ConfirmedSince(steps, s, r, key, i, t);
  }

  lemma OpenedAt(steps: seq<Step>, s: State, r: nat, key: Key) returns (i: nat, t: State)
    requires Run(INITIAL, steps, s) && Open(s, r, key)
    ensures Earlier(INITIAL, steps, i, t) && steps[i] == Api(Remove(r)) && key !in t.tables.subscriptions
    ensures OpenAfter(INITIAL, steps, i, r, key)
  {
    var since;
    since, t := OpenSince(INITIAL, steps, s, r, key);
    assert since >= 0 by { NotOpenAtFirst(steps, since, r, key); }
    i := since;
  }

  lemma NotOpenAtFirst(steps: seq<Step>, since: int, r: nat, key: Key)
    requires OpenAfter(INITIAL, steps, since, r, key)
    ensures since >= 0
  {
    assert Moment(INITIAL, steps, 0, INITIAL);
  }

  lemma ConfirmedSince(steps: seq<Step>, s: State, r: nat, key: Key, i: nat, t: State) returns (j: nat, v: State)
    requires Run(INITIAL, steps, s) && IsConfirmed(s, key)
    requires Earlier(INITIAL, steps, i, t) && steps[i] == Api(Remove(r)) && key !in t.tables.subscriptions
    ensures i < j && Earlier(INITIAL, steps, j, v) && ConfirmsRow(v, steps[j], key)
  {
    hide Run, Enabled, Next;
    AfterStep(INITIAL, steps, s, i, t);
    RemoveConfirmsNothing(t, r, key);
    j, v := ConfirmedFrom(INITIAL, steps[..i + 1], Next(t, steps[i]), steps[i + 1..], s, key);
    assert steps[..i + 1] + steps[i + 1..] == steps;
  }

  lemma ConfirmedFrom(s: State, first: seq<Step>, t: State, rest: seq<Step>, u: State, key: Key)
      returns (j: nat, v: State)
    requires Run(s, first, t) && Run(t, rest, u) && !IsConfirmed(t, key) && IsConfirmed(u, key)
    ensures |first| <= j && Earlier(s, first + rest, j, v) && ConfirmsRow(v, (first + rest)[j], key)
  {
    hide Run, Enabled, Next;
    j, v := FirstConfirmed(t, rest, u, key);
    LaterEarlier(s, first, t, rest, j, v);
    j := |first| + j;
  }

  lemma RemoveConfirmsNothing(t: State, r: nat, key: Key)
    requires Enabled(t, Api(Remove(r))) && key !in t.tables.subscriptions
    ensures !IsConfirmed(Next(t, Api(Remove(r))), key)
  {
  }

  // ----- a run that takes a confirmation back -----

  /** The unsubscription `r` deletes the row it finds and commits. */
  lemma RemoveRow(s: State, key: Key, r: nat, rowId: nat) returns (u: State)
    requires Reachable(s) && key in s.tables.subscriptions && !Held(s, key) && CanCommit(s, rowId)
    requires r in s.requests && s.requests[r] == Leaving(key)
    ensures Reachable(u) && key !in u.tables.subscriptions && !HeldByRequest(u, key)
    ensures u.requests == s.requests - {r} && u.drawnIds == s.drawnIds
    ensures u.outbox.insertLog == s.outbox.insertLog + [Outbox.Entry(rowId, Unsubscribed(key))]
  {
    ReachableNext(s, Api(Remove(r)));
    var t := CallNext(s, Remove(r));
    assert t.requests[r] == Removing(key, true) && t.outbox == s.outbox;
    ReachableNext(t, Api(RemoveCommit(r, rowId)));
    u := CallNext(t, RemoveCommit(r, rowId));
    forall q | q in u.requests ensures !Changed(u.requests[q], key) { assert u.requests[q] == s.requests[q]; }
  }

  /** The unsubscription `r` finds no row. */
  lemma FindNoRow(s: State, key: Key, r: nat) returns (u: State)
    requires Reachable(s) && key !in s.tables.subscriptions && !HeldByRequest(s, key)
    requires r in s.requests && s.requests[r] == Leaving(key)
    ensures Reachable(u) && u == s.(requests := s.requests[r := Removing(key, false)]) && !Held(u, key)
  {
    ReachableNext(s, Api(Remove(r)));
    u := CallNext(s, Remove(r));
    forall q | q in u.requests ensures !Changed(u.requests[q], key) {
      if q != r { assert u.requests[q] == s.requests[q]; }
    }
  }

  /** Confirm inserts the row it read before it was deleted, and commits. */
  lemma RestoreRow(s: State, key: Key, token: Token, r: nat, freshId: nat, rowId: nat) returns (u: State)
    requires Reachable(s) && key !in s.tables.subscriptions && !Held(s, key) && CanCommit(s, rowId)
    requires freshId !in s.drawnIds
    requires r in s.requests && s.requests[r] == Confirming(key, token)
    ensures Reachable(u) && IsConfirmed(u, key) && u.tables.subscriptions[key].token == token
    ensures u.requests == s.requests - {r}
    ensures u.outbox.insertLog == s.outbox.insertLog + [Outbox.Entry(rowId, Activated(key, token))]
  {
    ReachableNext(s, Api(ConfirmSave(r, freshId)));
    u := RestoreCommits(CallNext(s, ConfirmSave(r, freshId)), key, token, freshId, r, rowId);
    assert u.requests == s.requests - {r};
  }

  lemma RestoreCommits(s: State, key: Key, token: Token, id: nat, r: nat, rowId: nat) returns (u: State)
    requires Reachable(s) && r in s.requests && s.requests[r] == Storing(key, token, id) && CanCommit(s, rowId)
    ensures Reachable(u) && IsConfirmed(u, key) && u.tables.subscriptions[key].token == token
    ensures u.requests == s.requests - {r}
    ensures u.outbox.insertLog == s.outbox.insertLog + [Outbox.Entry(rowId, Activated(key, token))]
  {
    ReachableNext(s, Api(ConfirmCommit(r, rowId)));
    u := CallNext(s, ConfirmCommit(r, rowId));
  }

  /** The unsubscription that found no row commits. */
  lemma TakeBack(s: State, key: Key, r: nat, rowId: nat) returns (u: State)
    requires Reachable(s) && Open(s, r, key) && IsConfirmed(s, key) && CanCommit(s, rowId)
    ensures Reachable(u) && u.tables == s.tables && key in u.emptied && !Covers(u)
  {
    var step := Api(RemoveCommit(r, rowId));
    InvHolds(s);
    ReachableNext(s, step);
    TakingBackUncovers(s, step);
    u := Next(s, step);
  }

  /** Nothing of this has been used before. */
  ghost predicate Unused(s: State, requests: seq<nat>, rowIds: seq<nat>, freshId: nat) {
    && |requests| == |rowIds| == 3 && freshId !in s.drawnIds
    && requests[0] != requests[1] && requests[0] != requests[2] && requests[1] != requests[2]
    && rowIds[0] != rowIds[1] && rowIds[0] != rowIds[2] && rowIds[1] != rowIds[2]
    && (forall i :: 0 <= i < 3 ==> requests[i] !in s.requests && CanCommit(s, rowIds[i]))
  }

  /** A request reads the row. */
  lemma OneReader(s: State, key: Key, call: Call) returns (u: State)
    requires Reachable(s) && CallEnabled(s, call) && !Held(s, key)
    requires (call.Confirm? || call.Leave?) && call.key == key
    ensures Reachable(u) && u.tables == s.tables && u.outbox == s.outbox && u.drawnIds == s.drawnIds && !Held(u, key)
    ensures u.requests == s.requests[call.request :=
      if call.Confirm? then Confirming(key, s.tables.subscriptions[key].token) else Leaving(key)]
  {
    hide Reachable;
    ReachableNext(s, Api(call));
    u := CallNext(s, call);
    forall q | q in u.requests ensures !Changed(u.requests[q], key) {
      if q != call.request { assert u.requests[q] == s.requests[q]; }
    }
  }

  lemma ThreeReaders(s: State, key: Key, requests: seq<nat>, rowIds: seq<nat>, freshId: nat) returns (u: State)
    requires Reachable(s) && key in s.tables.subscriptions && s.tables.subscriptions[key].token != "" && !Held(s, key)
    requires Unused(s, requests, rowIds, freshId)
    ensures Reachable(u) && u.tables == s.tables && u.outbox == s.outbox && u.drawnIds == s.drawnIds && !Held(u, key)
    ensures u.requests ==
      s.requests[requests[0] := Confirming(key, s.tables.subscriptions[key].token)]
                [requests[1] := Leaving(key)][requests[2] := Leaving(key)]
  {
    u := OneReader(s, key, Confirm(requests[0], key));
    u := OneReader(u, key, Leave(requests[1], key));
    u := OneReader(u, key, Leave(requests[2], key));
  }

  lemma StillFree(s: State, u: State, m: Message, rowId: nat, other: nat)
    requires u.outbox.insertLog == s.outbox.insertLog + [Outbox.Entry(rowId, m)] && CanCommit(s, other)
    requires other != rowId
    ensures CanCommit(u, other)
  {
  }

  /** Wherever a subscription is not held, the race can happen: Confirm and two unsubscriptions read the row, the first
      unsubscription deletes it and commits, the second finds no row, Confirm inserts the row again and commits, and the
      second unsubscription commits. The subscription is confirmed then, and replaying the events forgets it. */
  lemma ConfirmationTakenBack(s: State, key: Key, requests: seq<nat>, rowIds: seq<nat>, freshId: nat) returns (u: State)
    requires Reachable(s) && key in s.tables.subscriptions && s.tables.subscriptions[key].token != "" && !Held(s, key)
    requires Unused(s, requests, rowIds, freshId)
    ensures Reachable(u) && IsConfirmed(u, key)
    ensures u.tables.subscriptions[key].token == s.tables.subscriptions[key].token
    ensures key in u.emptied && !Covers(u)
  {
    hide Reachable, Held;
    var token := s.tables.subscriptions[key].token;
    var t := ThreeReaders(s, key, requests, rowIds, freshId);
    var v := RemoveRow(t, key, requests[1], rowIds[0]);
    StillFree(t, v, Unsubscribed(key), rowIds[0], rowIds[1]);
    StillFree(t, v, Unsubscribed(key), rowIds[0], rowIds[2]);
    var w := FindNoRow(v, key, requests[2]);
    var x := RestoreRow(w, key, token, requests[0], freshId, rowIds[1]);
    StillFree(w, x, Activated(key, token), rowIds[1], rowIds[2]);
    u := TakeBack(x, key, requests[2], rowIds[2]);
  }

  /** Before anybody subscribes. */
  ghost predicate Fresh(s: State) {
    && Reachable(s) && s.outbox == Outbox.INITIAL && s.requests == map[] && s.replies == map[] && s.commands == map[]
    && s.tables.subscriptions == map[] && s.drawnIds == {}
  }

  lemma TrackerKeepsFresh(s: State, work: Tracker.Step) returns (u: State)
    requires Fresh(s) && Tracker.Enabled(s.tracker, work) && !work.Receive? && !work.Relay?
    ensures Fresh(u) && u.tables == s.tables && u.tracker == Tracker.Next(s.tracker, work)
  {
    ReachableNext(s, TrackerStep(work, false));
    u := TrackerNext(s, work, false);
  }

  /** The tracker registers the repository and answers, and the subscription service stores it. */
  lemma SomeRepository(name: Name, tag: Tag) returns (s: State)
    ensures Fresh(s) && name in s.tables.repositories
  {
    assert Run(INITIAL, [], INITIAL);
    s := TrackerKeepsFresh(INITIAL, Tracker.Call(0, name));
    s := TrackerKeepsFresh(s, Tracker.Find(0));
    s := TrackerKeepsFresh(s, Tracker.Fetch(0, tag));
    s := TrackerKeepsFresh(s, Tracker.Create(0, 0));
    s := Answered(s, name, tag);
  }

  lemma Answered(s: State, name: Name, tag: Tag) returns (u: State)
    requires Fresh(s) && 0 in s.tracker.tasks && s.tracker.tasks[0] == Tracker.Responding(name, tag)
    ensures Fresh(u) && name in u.tables.repositories
  {
    ReachableNext(s, Api(Respond(0, 0)));
    var t := CallNext(s, Respond(0, 0));
    assert t.requests[0] == Registering(name, tag);
    ReachableNext(t, Api(System.Call.RegisterRepository(0)));
    u := CallNext(t, System.Call.RegisterRepository(0));
    assert u.requests == map[];
  }

  lemma SomeSubscription(key: Key, token: Token, tag: Tag) returns (s: State)
    ensures Reachable(s) && key in s.tables.subscriptions && s.tables.subscriptions[key].token == token && !Held(s, key)
    ensures Unused(s, [0, 1, 2], [1, 2, 3], 1)
  {
    var t := SomeRepository(key.repo, tag);
    ReachableNext(t, Api(RegisterUser(key.email)));
    s := Subscribed(CallNext(t, RegisterUser(key.email)), key, token);
  }

  lemma Subscribed(s: State, key: Key, token: Token) returns (u: State)
    requires Fresh(s) && key.email in s.tables.users && key.repo in s.tables.repositories
    ensures Reachable(u) && key in u.tables.subscriptions && u.tables.subscriptions[key].token == token && !Held(u, key)
    ensures Unused(u, [0, 1, 2], [1, 2, 3], 1)
  {
    ReachableNext(s, Api(System.Call.Subscribe(0, key, token, 0)));
    var t := CallNext(s, System.Call.Subscribe(0, key, token, 0));
    assert t.requests == map[0 := Subscribing(key, token, 0)] && t.outbox == Outbox.INITIAL;
    u := SubscribedCommits(t, key, token);
  }

  lemma SubscribedCommits(s: State, key: Key, token: Token) returns (u: State)
    requires Reachable(s) && s.outbox == Outbox.INITIAL && s.requests == map[0 := Subscribing(key, token, 0)]
    requires s.replies == map[] && s.commands == map[] && s.drawnIds == {0}
    ensures Reachable(u) && key in u.tables.subscriptions && u.tables.subscriptions[key].token == token && !Held(u, key)
    ensures Unused(u, [0, 1, 2], [1, 2, 3], 1)
  {
    hide Reachable, Unused;
    ReachableNext(s, Api(SubscribeCommit(0, 0, 0)));
    u := CallNext(s, SubscribeCommit(0, 0, 0));
    assert u.requests == map[] && u.outbox.insertLog == [Outbox.Entry(0, Writes(s.requests[0], 0))];
    FirstIsUnused(u, Writes(s.requests[0], 0));
  }

  lemma FirstIsUnused(u: State, m: Message)
    requires u.requests == map[] && u.drawnIds == {0} && u.outbox.insertLog == [Outbox.Entry(0, m)]
    ensures Unused(u, [0, 1, 2], [1, 2, 3], 1)
  {
  }

  /** So for every user, repository and token there is a run at whose end the subscription is confirmed, and replaying
      the committed events in their order forgets it. */
  lemma ReplayCanForget(key: Key, token: Token, tag: Tag) returns (u: State)
    requires token != ""
    ensures Reachable(u) && IsConfirmed(u, key) && u.tables.subscriptions[key].token == token && !Covers(u)
  {
    var s := SomeSubscription(key, token, tag);
    u := ConfirmationTakenBack(s, key, [0, 1, 2], [1, 2, 3], 1);
  }
}
