/** What the subscription database's copy of a repository's tag is. */
module TagCopy {
  import opened Contracts
  import opened SubscriptionTables
  import Tracker
  import opened System
  import opened SystemInvariant
  import opened Guarantees

  predicate Updates(step: Step, name: Name) {
    step.Api? && step.call.UpdateTag? && step.call.stamp.name == name
  }

  /** The step stores the repository, which was unknown, with the tag the tracker answered. */
  ghost predicate FirstStores(t: State, step: Step, name: Name, tag: Tag) {
    && step.Api? && step.call.RegisterRepository? && step.call.request in t.requests
    && t.requests[step.call.request] == Registering(name, tag) && name !in t.tables.repositories
  }

  /** Where the copy `copy` of this name's tag comes from: from this update, or from this registration, which keeps an
      empty tag as null. */
  ghost predicate Sets(t: State, step: Step, name: Name, copy: Option<Tag>) {
    || (Updates(step, name) && name in t.tables.repositories && copy == Some(step.call.stamp.tag))
    || exists tag :: FirstStores(t, step, name, tag) && copy == if tag == "" then None else Some(tag)
  }

  lemma CallSets(t: State, call: Call, name: Name)
    requires CallEnabled(t, call) && name in CallNext(t, call).tables.repositories
    ensures
      var u := CallNext(t, call);
      || Sets(t, Api(call), name, u.tables.repositories[name])
      || (!Updates(Api(call), name) && name in t.tables.repositories
          && u.tables.repositories[name] == t.tables.repositories[name])
  {
    if IsCommit(call) {
      CommitFrame(t, call);
    } else if call.RegisterRepository? {
      var r := t.requests[call.request];
      assert r.name != name || name in t.tables.repositories || FirstStores(t, Api(call), name, r.tag);
    }
  }

  lemma StepSets(t: State, step: Step, name: Name)
    requires Enabled(t, step) && name in Next(t, step).tables.repositories
    ensures
      var u := Next(t, step);
      || Sets(t, step, name, u.tables.repositories[name])
      || (!Updates(step, name) && name in t.tables.repositories
          && u.tables.repositories[name] == t.tables.repositories[name])
  {
    match step
    case Api(call) => CallSets(t, call, name);
    case Orchestrate(move) => ReplyFrame(t, move);
    case Notify(move) => MailFrame(t, move);
    case TrackerStep(_, _) =>
    case RelayStep(_) =>
  }

  /** In every run the copy of a known name is the tag of the last update committed for it or, if none was committed
      since it was registered, the tag it was registered with - null for an empty one. */
  lemma {:induction false} CopyIsTheLastUpdate(steps: seq<Step>, s: State, name: Name) returns (i: nat, t: State)
    requires Run(INITIAL, steps, s) && name in s.tables.repositories
    ensures Earlier(INITIAL, steps, i, t) && Sets(t, steps[i], name, s.tables.repositories[name])
    ensures forall k :: i < k < |steps| ==> !Updates(steps[k], name)
    decreases |steps|
  {
    var n := |steps| - 1;
    t := LastStep(INITIAL, steps, s);
    hide Run, Enabled, Next, Sets;
    StepSets(t, steps[n], name);
    if Sets(t, steps[n], name, s.tables.repositories[name]) {
      i := n;
    } else {
      i, t := CopyIsTheLastUpdate(steps[..n], t, name);
      EarlierInPrefix(INITIAL, steps, n, i, t);
      forall k | i < k < |steps| ensures !Updates(steps[k], name) {
        if k < n { assert steps[k] == steps[..n][k]; }
      }
    }
  }
}
