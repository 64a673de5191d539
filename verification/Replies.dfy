/** Replies may arrive in any order and more than once. */
module Replies {
  import opened Contracts
  import opened SubscriptionTables

  function HandleAll(t: Tables, replies: seq<Reply>): Tables
    decreases |replies|
  {
    if replies == [] then t
    else HandleReply(HandleAll(t, replies[..|replies| - 1]), replies[|replies| - 1])
  }

  ghost function Set(replies: seq<Reply>): set<Reply> {
    set r | r in replies
  }

  /** No saga of the table gets both a success and a failure. */
  ghost predicate Consistent(t: Tables, replies: set<Reply>) {
    forall r, q | r in replies && q in replies && r.sagaId == q.sagaId && r.sagaId in t.sagas :: r.success == q.success
  }

  ghost predicate Succeeds(replies: set<Reply>, sagaId: nat) {
    exists r :: r in replies && r.sagaId == sagaId && r.success
  }

  ghost predicate Fails(replies: set<Reply>, sagaId: nat) {
    exists r :: r in replies && r.sagaId == sagaId && !r.success
  }

  ghost predicate Removes(replies: set<Reply>, subscriptionId: nat) {
    exists r :: r in replies && r.subscriptionId == subscriptionId && !r.success
  }

  /** What a set of replies amounts to, without any order. */
  ghost function Settled(saga: Saga, sagaId: nat, replies: set<Reply>): Saga {
    if Succeeds(replies, sagaId) then
      if saga.status.Completed? then saga else Saga(saga.subscriptionId, Completed, ActivateSubscription)
    else if Fails(replies, sagaId) then saga.(status := Compensated)
    else saga
  }

  ghost function Outcome(t: Tables, replies: set<Reply>): Tables {
    Tables(t.users, t.repositories,
           map key | key in t.subscriptions && !Removes(replies, t.subscriptions[key].id) :: t.subscriptions[key],
           map id | id in t.sagas :: Settled(t.sagas[id], id, replies))
  }

  lemma OneMore(replies: set<Reply>, r: Reply, id: nat)
    ensures Succeeds(replies + {r}, id) <==> Succeeds(replies, id) || (r.sagaId == id && r.success)
    ensures Fails(replies + {r}, id) <==> Fails(replies, id) || (r.sagaId == id && !r.success)
    ensures Removes(replies + {r}, id) <==> Removes(replies, id) || (r.subscriptionId == id && !r.success)
  {
    if q :| q in replies && q.sagaId == id && q.success { assert q in replies + {r}; }
    if q :| q in replies && q.sagaId == id && !q.success { assert q in replies + {r}; }
    if q :| q in replies && q.subscriptionId == id && !q.success { assert q in replies + {r}; }
    assert r in replies + {r};
  }

  lemma SettleOneMore(t: Tables, replies: set<Reply>, r: Reply, id: nat)
    requires Consistent(t, replies + {r}) && id in t.sagas
    ensures HandleReply(Outcome(t, replies), r).sagas[id] == Settled(t.sagas[id], id, replies + {r})
  {
    OneMore(replies, r, id);
    if r.sagaId == id {
      assert r in replies + {r};
      if q :| q in replies && q.sagaId == id && q.success { assert q in replies + {r}; }
      if q :| q in replies && q.sagaId == id && !q.success { assert q in replies + {r}; }
    }
  }

  lemma RemoveOneMore(t: Tables, replies: set<Reply>, r: Reply)
    ensures HandleReply(Outcome(t, replies), r).subscriptions == Outcome(t, replies + {r}).subscriptions
  {
    var u, v := HandleReply(Outcome(t, replies), r), Outcome(t, replies + {r});
    forall key | key in t.subscriptions ensures key in u.subscriptions <==> key in v.subscriptions {
      OneMore(replies, r, t.subscriptions[key].id);
    }
  }

  lemma HandleOneMore(t: Tables, replies: set<Reply>, r: Reply)
    requires Consistent(t, replies + {r})
    ensures HandleReply(Outcome(t, replies), r) == Outcome(t, replies + {r})
  {
    var u, v := HandleReply(Outcome(t, replies), r), Outcome(t, replies + {r});
    RemoveOneMore(t, replies, r);
    assert u.sagas == v.sagas by {
      assert u.sagas.Keys == t.sagas.Keys == v.sagas.Keys;
      forall id | id in t.sagas ensures u.sagas[id] == v.sagas[id] { SettleOneMore(t, replies, r, id); }
    }
  }

  /** Whatever the order and the repetitions, the tables end as the set of replies says. */
  lemma {:induction false} HandleAllIsOutcome(t: Tables, replies: seq<Reply>)
    requires Consistent(t, Set(replies))
    ensures HandleAll(t, replies) == Outcome(t, Set(replies))
    decreases |replies|
  {
    if replies == [] {
      assert Outcome(t, {}).subscriptions == t.subscriptions && Outcome(t, {}).sagas == t.sagas;
    } else {
      var rest, r := replies[..|replies| - 1], replies[|replies| - 1];
      assert Set(replies) == Set(rest) + {r};
      HandleAllIsOutcome(t, rest);
      HandleOneMore(t, Set(rest), r);
    }
  }

  /** Only the set of replies matters to the final tables. */
  ghost predicate OrderDoesNotMatter(t: Tables, replies: set<Reply>) {
    forall a, b :: Set(a) == replies && Set(b) == replies ==> HandleAll(t, a) == HandleAll(t, b)
  }

  lemma Enumerate(replies: set<Reply>) returns (s: seq<Reply>)
    ensures Set(s) == replies
  {
    if replies == {} {
      s := [];
    } else {
      var r :| r in replies;
      var rest := Enumerate(replies - {r});
      s := rest + [r];
      assert Set(s) == Set(rest) + {r};
    }
  }

  lemma EndingWith(replies: set<Reply>, last: Reply) returns (s: seq<Reply>)
    requires last in replies
    ensures Set(s) == replies && s != [] && s[|s| - 1] == last
  {
    var rest := Enumerate(replies);
    s := rest + [last];
    assert Set(s) == Set(rest) + {last};
  }

  lemma LastWins(t: Tables, replies: seq<Reply>, last: Reply)
    requires replies != [] && replies[|replies| - 1] == last && last.sagaId in t.sagas
    ensures last.sagaId in HandleAll(t, replies).sagas
    ensures HandleAll(t, replies).sagas[last.sagaId].status == if last.success then Completed else Compensated
  {
    SagasStay(t, replies[..|replies| - 1]);
  }

  lemma {:induction false} SagasStay(t: Tables, replies: seq<Reply>)
    ensures HandleAll(t, replies).sagas.Keys == t.sagas.Keys
    decreases |replies|
  {
    if replies != [] { SagasStay(t, replies[..|replies| - 1]); }
  }

  lemma ConflictShows(t: Tables, replies: set<Reply>, r: Reply, q: Reply)
    requires r in replies && q in replies && r.sagaId == q.sagaId && r.sagaId in t.sagas && r.success != q.success
    ensures !OrderDoesNotMatter(t, replies)
  {
    var a := EndingWith(replies, r);
    var b := EndingWith(replies, q);
    LastWins(t, a, r);
    LastWins(t, b, q);
  }

  /** Exactly the contradictory sets are sensitive to order: if some saga of the table gets both kinds of
      reply, the one handled last decides; otherwise order and duplicates do not show. */
  lemma OrderMattersExactlyOnConflict(t: Tables, replies: set<Reply>)
    ensures OrderDoesNotMatter(t, replies) <==> Consistent(t, replies)
  {
    if Consistent(t, replies) {
      forall a, b | Set(a) == replies && Set(b) == replies ensures HandleAll(t, a) == HandleAll(t, b) {
        HandleAllIsOutcome(t, a);
        HandleAllIsOutcome(t, b);
      }
    } else {
      var r, q :| r in replies && q in replies && r.sagaId == q.sagaId && r.sagaId in t.sagas && r.success != q.success;
      ConflictShows(t, replies, r, q);
    }
  }
}
