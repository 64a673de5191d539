/** With one relay no row waits for ever, however often publishing fails. */
module RelayFairness {
  import opened Outbox

  // ----- ascending sequences of ids -----

  ghost function Ids(ids: seq<nat>): set<nat> {
    set id | id in ids
  }

  lemma {:induction false} IdsBound(ids: seq<nat>)
    ensures |Ids(ids)| <= |ids|
    ensures Ascending(ids) ==> |Ids(ids)| == |ids|
  {
    if ids != [] {
      var rest, last := ids[..|ids| - 1], ids[|ids| - 1];
      IdsBound(rest);
      assert Ids(ids) == Ids(rest) + {last};
      if Ascending(ids) { assert last !in rest; }
    }
  }

  lemma Greatest(s: set<nat>) returns (m: nat)
    requires s != {}
    ensures m in s && forall id :: id in s ==> id <= m
  {
    m :| m in s;
    if s != {m} {
      var n := Greatest(s - {m});
      forall id | id in s ensures id <= m || id <= n { if id != m { assert id in s - {m}; } }
      if n > m { m := n; }
    }
  }

  lemma Appended(ids: seq<nat>, m: nat)
    requires Ascending(ids) && forall id :: id in Ids(ids) ==> id < m
    ensures Ascending(ids + [m]) && Ids(ids + [m]) == Ids(ids) + {m}
  {
    forall i | 0 <= i < |ids| ensures ids[i] < m { assert ids[i] in Ids(ids); }
  }

  lemma InOrder(s: set<nat>) returns (ids: seq<nat>)
    ensures Ascending(ids) && Ids(ids) == s && |ids| == |s|
  {
    if s == {} {
      ids := [];
    } else {
      var m := Greatest(s);
      var rest := InOrder(s - {m});
      ids := rest + [m];
      Appended(rest, m);
    }
  }

  // ----- runs of one relay -----

  /** Only `relay` takes batches, and new rows only arrive behind `target`. */
  ghost predicate Fair(step: Step, relay: nat, target: nat) {
    match step
    case Commit(entries) => forall e :: e in entries ==> e.id > target
    case Fetch(r, _) => r == relay
    case _ => true
  }

  ghost function Ahead(table: Table, target: nat): set<nat> {
    set id | id in table && IsPending(table, id) && id < target
  }

  ghost predicate AllFair(steps: seq<Step>, relay: nat, target: nat) {
    forall step :: step in steps ==> Fair(step, relay, target)
  }

  /** How many batches it takes until the row is in one, if every batch ahead of it leaves. */
  ghost function Rounds(table: Table, target: nat): nat {
    |Ahead(table, target)| / BATCH_SIZE + 1
  }

  /** After 5 * group + tries committed batches: the rows of earlier groups of a hundred have left PENDING,
      those of the current group were counted `tries` times, and an open batch holds what is left of it. */
  ghost predicate Progress(s: State, relay: nat, queue: seq<nat>, group: nat, tries: nat)
    requires queue != []
  {
    && tries < MAX_ATTEMPTS
    && (forall id: nat :: IsPending(s.table, id) && id <= queue[|queue| - 1] ==> id in queue)
    && (forall j :: 0 <= j < |queue| && j < BATCH_SIZE * group ==> !IsPending(s.table, queue[j]))
    && (forall j | BATCH_SIZE * group <= j < |queue| && j < BATCH_SIZE * (group + 1) && IsPending(s.table, queue[j]) ::
          s.table[queue[j]].attempts >= tries
          && (relay in s.open ==> queue[j] in s.open[relay].ids))
    && (forall r :: r in s.open ==> r == relay)
  }

  lemma FetchTakesGroup(table: Table, ids: seq<nat>, queue: seq<nat>, lo: nat, j: nat)
    requires Ascending(queue) && lo <= j < |queue| && j < lo + BATCH_SIZE
    requires IsFetch(table, {}, BATCH_SIZE, ids) && IsPending(table, queue[j])
    requires forall id: nat :: IsPending(table, id) && id <= queue[j] ==> id in queue
    requires forall i :: 0 <= i < lo ==> !IsPending(table, queue[i])
    ensures queue[j] in ids
  {
    if queue[j] !in ids {
      var before := queue[lo..j];
      forall id | id in ids ensures id in before {
        var i :| 0 <= i < |queue| && queue[i] == id;
        assert lo <= i;
        assert i < j;
        assert before[i - lo] == id;
      }
      assert Ids(ids) <= Ids(before);
      Subset(Ids(ids), Ids(before));
      IdsBound(ids);
      IdsBound(before);
      assert false;
    }
  }

  lemma {:induction false} Subset(a: set<nat>, b: set<nat>)
    requires a <= b
    ensures |a| <= |b|
  {
    if a != {} {
      var x :| x in a;
      Subset(a - {x}, b - {x});
    }
  }

  lemma FetchMakesProgress(s: State, ids: seq<nat>, relay: nat, queue: seq<nat>, group: nat, tries: nat)
    requires Enabled(s, Fetch(relay, ids)) && queue != [] && Ascending(queue)
    requires Progress(s, relay, queue, group, tries)
    ensures Progress(Next(s, Fetch(relay, ids)), relay, queue, group, tries)
  {
    assert Locked(s) == {};
    var t := Next(s, Fetch(relay, ids));
    forall j | BATCH_SIZE * group <= j < |queue| && j < BATCH_SIZE * (group + 1) && IsPending(t.table, queue[j])
      ensures queue[j] in ids
    {
      FetchTakesGroup(s.table, ids, queue, BATCH_SIZE * group, j);
    }
  }

  lemma SettleMakesProgress(s: State, relay: nat, queue: seq<nat>, group: nat, tries: nat)
      returns (group': nat, tries': nat)
    requires Batches(s) && Enabled(s, Close(relay, true)) && !s.open[relay].poisoned
    requires queue != [] && Ascending(queue) && Progress(s, relay, queue, group, tries)
    ensures Progress(Next(s, Close(relay, true)), relay, queue, group', tries')
    ensures MAX_ATTEMPTS * group' + tries' == MAX_ATTEMPTS * group + tries + 1
  {
    var b, t := s.open[relay], Next(s, Close(relay, true));
    assert BatchFits(s.table, b);
    forall id: nat | IsPending(t.table, id) ensures IsPending(s.table, id) { }
    forall j | BATCH_SIZE * group <= j < |queue| && j < BATCH_SIZE * (group + 1) && IsPending(t.table, queue[j])
      ensures t.table[queue[j]].attempts >= tries + 1 && tries + 1 < MAX_ATTEMPTS
    {
      assert queue[j] in b.ids;
    }
    if tries + 1 < MAX_ATTEMPTS {
      group', tries' := group, tries + 1;
    } else {
      group', tries' := group + 1, 0;
    }
  }

  lemma InsertMakesProgress(s: State, entries: seq<Entry>, relay: nat, queue: seq<nat>, group: nat, tries: nat)
    requires Rows(s) && Enabled(s, Commit(entries)) && queue != [] && Ascending(queue)
    requires Progress(s, relay, queue, group, tries)
    requires Fair(Commit(entries), relay, queue[|queue| - 1])
    ensures Progress(Next(s, Commit(entries)), relay, queue, group, tries)
  {
    var t := Next(s, Commit(entries));
    InsertedRows(s, entries);
    forall id: nat | IsPending(t.table, id) && id <= queue[|queue| - 1]
      ensures IsPending(s.table, id) && t.table[id] == s.table[id]
    {
      assert forall e :: e in entries ==> e.id != id;
    }
    assert forall j :: 0 <= j < |queue| ==> queue[j] <= queue[|queue| - 1];
  }

  lemma StepMakesProgress(s: State, step: Step, relay: nat, queue: seq<nat>, group: nat, tries: nat)
      returns (group': nat, tries': nat)
    requires Inv(s) && Enabled(s, step) && queue != [] && Ascending(queue)
    requires Progress(s, relay, queue, group, tries)
    requires Fair(step, relay, queue[|queue| - 1])
    ensures Progress(Next(s, step), relay, queue, group', tries')
    ensures MAX_ATTEMPTS * group' + tries' == MAX_ATTEMPTS * group + tries + Next(s, step).commits - s.commits
  {
    var t := Next(s, step);
    group', tries' := group, tries;
    match step {
      case Commit(entries) =>
        InsertMakesProgress(s, entries, relay, queue, group, tries);
      case Fetch(_, ids) =>
        FetchMakesProgress(s, ids, relay, queue, group, tries);
      case Close(r, ok) =>
        if ok && !s.open[r].poisoned {
          group', tries' := SettleMakesProgress(s, relay, queue, group, tries);
        }
      case _ =>
    }
  }

  lemma {:induction false} RunMakesProgress(s: State, steps: seq<Step>, t: State, relay: nat, queue: seq<nat>,
      group: nat, tries: nat) returns (group': nat, tries': nat)
    requires Inv(s) && Run(s, steps, t) && queue != [] && Ascending(queue)
    requires Progress(s, relay, queue, group, tries)
    requires forall step :: step in steps ==> Fair(step, relay, queue[|queue| - 1])
    ensures Progress(t, relay, queue, group', tries')
    ensures MAX_ATTEMPTS * group' + tries' == MAX_ATTEMPTS * group + tries + t.commits - s.commits
    decreases |steps|
  {
    group', tries' := group, tries;
    if steps != [] {
      StepKeeps(s, steps[0]);
      assert steps[0] in steps;
      group', tries' := StepMakesProgress(s, steps[0], relay, queue, group, tries);
      assert forall step :: step in steps[1..] ==> step in steps;
      group', tries' := RunMakesProgress(Next(s, steps[0]), steps[1..], t, relay, queue, group', tries');
    }
  }

  lemma Waiting(s: State, target: nat) returns (queue: seq<nat>)
    requires IsPending(s.table, target)
    ensures Ascending(queue) && |queue| == |Ahead(s.table, target)| + 1 && queue[|queue| - 1] == target
    ensures forall id: nat :: IsPending(s.table, id) && id <= target ==> id in queue
  {
    var ahead := InOrder(Ahead(s.table, target));
    forall i | 0 <= i < |ahead| ensures ahead[i] < target { assert ahead[i] in Ids(ahead); }
    queue := ahead + [target];
    forall id: nat | IsPending(s.table, id) && id <= target ensures id in queue {
      if id != target { assert id in Ids(ahead); }
    }
  }

  lemma LeavesFrom(s: State, steps: seq<Step>, t: State, relay: nat, target: nat)
    requires Inv(s) && s.open == map[] && IsPending(s.table, target)
    requires Run(s, steps, t) && AllFair(steps, relay, target)
    requires t.commits >= s.commits + MAX_ATTEMPTS * Rounds(s.table, target)
    ensures !IsPending(t.table, target)
  {
    var queue := Waiting(s, target);
    var k := |queue| - 1;
    assert Progress(s, relay, queue, 0, 0);
    var group, tries := RunMakesProgress(s, steps, t, relay, queue, 0, 0);
    assert group >= k / BATCH_SIZE + 1;
    assert k < BATCH_SIZE * group;
    assert queue[k] == target;
  }

  // ----- from the middle of a batch -----

  lemma StepAhead(s: State, step: Step, relay: nat, target: nat)
    requires Inv(s) && Enabled(s, step) && Fair(step, relay, target)
    ensures forall id: nat :: id <= target && IsPending(Next(s, step).table, id) ==> IsPending(s.table, id)
  {
  }

  lemma {:induction false} NeverPendingAgain(s: State, steps: seq<Step>, t: State, relay: nat, target: nat)
    requires Inv(s) && Run(s, steps, t) && AllFair(steps, relay, target) && !IsPending(s.table, target)
    ensures !IsPending(t.table, target)
    decreases |steps|
  {
    if steps != [] {
      FairRest(steps, relay, target);
      StepKeeps(s, steps[0]);
      StepAhead(s, steps[0], relay, target);
      NeverPendingAgain(Next(s, steps[0]), steps[1..], t, relay, target);
    }
  }

  predicate Ends(step: Step) {
    step.Close? || step.Crash?
  }

  lemma StepInBatch(s: State, step: Step, relay: nat, target: nat)
    requires Inv(s) && Enabled(s, step) && Fair(step, relay, target) && s.open.Keys == {relay}
    ensures Inv(Next(s, step)) && Ahead(Next(s, step).table, target) <= Ahead(s.table, target)
    ensures Ends(step) ==> Next(s, step).open == map[] && Next(s, step).commits <= s.commits + 1
    ensures !Ends(step) ==> Next(s, step).open.Keys == {relay} && Next(s, step).commits == s.commits
  {
    StepKeeps(s, step);
    StepAhead(s, step, relay, target);
  }

  lemma FairRest(steps: seq<Step>, relay: nat, target: nat)
    requires steps != [] && AllFair(steps, relay, target)
    ensures Fair(steps[0], relay, target) && AllFair(steps[1..], relay, target)
  {
    assert steps[0] in steps && forall step :: step in steps[1..] ==> step in steps;
  }

  /** The open batch ends at some point of the run, at `u` with `rest` to come, if anything commits at all. */
  lemma {:induction false} BatchEndsAt(s: State, steps: seq<Step>, t: State, relay: nat, target: nat)
      returns (u: State, rest: seq<Step>)
    requires Inv(s) && Run(s, steps, t) && AllFair(steps, relay, target) && s.open.Keys == {relay}
    requires t.commits > s.commits
    ensures Run(u, rest, t) && AllFair(rest, relay, target) && Inv(u)
    ensures u.open == map[] && u.commits <= s.commits + 1 && Ahead(u.table, target) <= Ahead(s.table, target)
    decreases |steps|
  {
    FairRest(steps, relay, target);
    StepInBatch(s, steps[0], relay, target);
    u, rest := Next(s, steps[0]), steps[1..];
    if !Ends(steps[0]) { u, rest := BatchEndsAt(u, rest, t, relay, target); }
  }

  /** No starvation: take any reachable moment of the only relay and a row with k PENDING rows of smaller id. Whatever
      happens next - publishes failing, batches aborting, rows arriving behind it - the row is no longer PENDING once
      5 * (k / 100 + 1) batches have committed, one more if a batch is open at that moment. */
  lemma NoStarvation(before: seq<Step>, s: State, steps: seq<Step>, t: State, relay: nat, target: nat)
    requires Run(INITIAL, before, s) && s.open.Keys <= {relay} && IsPending(s.table, target)
    requires Run(s, steps, t) && AllFair(steps, relay, target)
    requires t.commits >= s.commits + 5 * (|Ahead(s.table, target)| / 100 + 1) + if s.open == map[] then 0 else 1
    ensures !IsPending(t.table, target)
  {
    assert Inv(s) by { RunKeeps(INITIAL, before, s); }
    if s.open == map[] {
      LeavesFrom(s, steps, t, relay, target);
    } else {
      assert relay in s.open.Keys;
      LeavesFromOpen(s, steps, t, relay, target);
    }
  }

  lemma LeavesFromOpen(s: State, steps: seq<Step>, t: State, relay: nat, target: nat)
    requires Inv(s) && s.open.Keys == {relay} && Run(s, steps, t) && AllFair(steps, relay, target)
    requires t.commits >= s.commits + MAX_ATTEMPTS * Rounds(s.table, target) + 1
    ensures !IsPending(t.table, target)
  {
    var u, rest := BatchEndsAt(s, steps, t, relay, target);
    if IsPending(u.table, target) {
      Subset(Ahead(u.table, target), Ahead(s.table, target));
      assert Rounds(u.table, target) <= Rounds(s.table, target);
      LeavesFrom(u, rest, t, relay, target);
    } else {
      NeverPendingAgain(u, rest, t, relay, target);
    }
  }
}
