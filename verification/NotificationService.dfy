/** The notification service's handling of confirmation commands. */
module NotificationService {
  import opened Contracts
  import opened SubscriptionTables
  import opened System
  import Relay

  datatype Mail = Mail(to: Email, repo: Name, token: Token)

  /** Everything SMTP has accepted, in order. */
  class EmailService {
    var accepted: seq<Mail>

    constructor ()
      ensures accepted == []
    {
      accepted := [];
    }

    method SendConfirmation(to: Email, repo: Name, token: Token, result: MailResult) returns (r: MailResult)
      modifies this
      ensures r == result
      ensures accepted == if result.Accepted? then old(accepted) + [Mail(to, repo, token)] else old(accepted)
    {
      if result.Accepted? { accepted := accepted + [Mail(to, repo, token)]; }
      return result;
    }
  }

  /** What the broker is told about the delivery of a command. */
  function Settled(result: MailResult, outcome: Outcome): Settlement {
    if result.Unavailable? || !outcome.Confirmed? then Requeue
    else if result.Accepted? then Ack
    else Discard
  }

  class ConfirmationConsumer {
    const email: EmailService
    const results: Relay.Broker

    constructor (email: EmailService, results: Relay.Broker)
      ensures this.email == email && this.results == results
    {
      this.email, this.results := email, results;
    }

    /** `body` is what the delivery decodes to, if it decodes. The mail goes out before the reply is published, so a
        reply that is not confirmed means another mail later. */
    method Handle(body: Option<Command>, result: MailResult, outcome: Outcome) returns (settlement: Settlement)
      modifies email, results
      ensures settlement == if body.None? then Discard else Settled(result, outcome)
      ensures settlement.Ack? <==> body.Some? && result.Accepted? && outcome.Confirmed?
      ensures settlement.Requeue? <==> body.Some? && (result.Unavailable? || !outcome.Confirmed?)
      ensures email.accepted == old(email.accepted) +
        if body.Some? && result.Accepted? then [Mail(body.value.email, body.value.repo, body.value.token)] else []
      ensures results.accepted == old(results.accepted) +
        if body.Some? && !result.Unavailable? && Queued(outcome)
        then [Result(ReplyTo(body.value, result.Accepted?))] else []
    {
      if body.None? { return Discard; }
      var c := body.value;
      var sent := email.SendConfirmation(c.email, c.repo, c.token, result);
      if !sent.Accepted? {
        settlement := HandleEmailError(c, sent, outcome);
        return;
      }
      var err := results.Publish(Result(Reply(c.sagaId, c.subscriptionId, true, c.email, c.repo, c.token)), outcome);
      if err { return Requeue; }
      return Ack;
    }

    method HandleEmailError(c: Command, error: MailResult, outcome: Outcome) returns (settlement: Settlement)
      requires !error.Accepted?
      modifies results
      ensures settlement == Settled(error, outcome)
      ensures settlement == if error.AuthFailed? && outcome.Confirmed? then Discard else Requeue
      ensures results.accepted == old(results.accepted) +
        if error.AuthFailed? && Queued(outcome) then [Result(ReplyTo(c, false))] else []
    {
      if error.Unavailable? { return Requeue; }
      var err := results.Publish(Result(Reply(c.sagaId, c.subscriptionId, false, c.email, c.repo, c.token)), outcome);
      if err { return Requeue; }
      return Discard;
    }
  }

  // ----- one delivery is a run of the protocol -----

  /** After the mail was handed to SMTP, which took it, refused it, or could not be reached. */
  function AfterMail(s: State, d: nat, c: Command, result: MailResult): State {
    if result.Unavailable? then s
    else s.(mail := s.mail[d := MailTask(c, if result.Accepted? then Sent else Refused)],
            accepted := s.accepted + if result.Accepted? then {c} else {},
            refused := s.refused + if result.AuthFailed? then {c} else {})
  }

  function Replied(c: Command, result: MailResult, outcome: Outcome): multiset<Message> {
    if !result.Unavailable? && Queued(outcome) then multiset{Result(ReplyTo(c, result.Accepted?))} else multiset{}
  }

  /** After the reply was published, if there is one. */
  function AfterReply(v: State, d: nat, c: Command, result: MailResult, outcome: Outcome): State {
    if result.Unavailable? then v
    else v.(mail := if outcome.Confirmed? then v.mail[d := MailTask(c, Answered(result.Accepted?))] else v.mail - {d},
            queue := v.queue + Replied(c, result, outcome))
  }

  /** After the delivery was acknowledged, dropped or requeued. */
  function AfterDelivery(w: State, d: nat, c: Command, settlement: Settlement): State {
    if settlement.Requeue? then w else w.(mail := w.mail - {d}, queue := w.queue - multiset{Confirmation(c)})
  }

  /** Nobody else has worked on delivery `d` since. */
  ghost predicate Waits(s: State, d: nat, v: State) {
    d in s.mail ==> d in v.mail && v.mail[d] == s.mail[d]
  }

  function Mailing(d: nat, c: Command, result: MailResult): seq<Step> {
    [Notify(TakeCommand(d, c))] + [Notify(SendMail(d, result))]
  }

  function Replying(d: nat, result: MailResult, outcome: Outcome): seq<Step> {
    if result.Unavailable? then [] else [Notify(Answer(d, outcome))]
  }

  function Ending(d: nat, settlement: Settlement): seq<Step> {
    if settlement.Requeue? then [] else [Notify(EndMail(d, true))]
  }

  /** A delivery from start to end, with the steps of others between its statements. */
  function Handling(d: nat, c: Command, result: MailResult, outcome: Outcome, others: seq<Step>, later: seq<Step>)
      : seq<Step> {
    Mailing(d, c, result) + others + Replying(d, result, outcome) + later + Ending(d, Settled(result, outcome))
  }

  lemma MailStep(s: State, d: nat, c: Command, result: MailResult)
    requires Enabled(s, Notify(TakeCommand(d, c)))
    ensures Enabled(Next(s, Notify(TakeCommand(d, c))), Notify(SendMail(d, result)))
    ensures Next(Next(s, Notify(TakeCommand(d, c))), Notify(SendMail(d, result))) == AfterMail(s, d, c, result)
  {
    SendStep(s, MailNext(s, TakeCommand(d, c)), d, c, result);
  }

  lemma SendStep(s: State, v: State, d: nat, c: Command, result: MailResult)
    requires d !in s.mail && v == s.(mail := s.mail[d := MailTask(c, Taken)])
    ensures MailEnabled(v, SendMail(d, result)) && MailNext(v, SendMail(d, result)) == AfterMail(s, d, c, result)
  {
    assert v.mail - {d} == s.mail;
  }

  lemma MailingRuns(s: State, d: nat, c: Command, result: MailResult)
    requires Enabled(s, Notify(TakeCommand(d, c)))
    ensures Run(s, Mailing(d, c, result), AfterMail(s, d, c, result))
  {
    var take, send := Notify(TakeCommand(d, c)), Notify(SendMail(d, result));
    MailStep(s, d, c, result);
    assert Run(s, [], s);
    hide Run, Enabled, Next;
    RunThen(s, [], s, take);
    assert [] + [take] == [take];
    RunThen(s, [take], Next(s, take), send);
  }

  lemma ReplyStep(v: State, d: nat, c: Command, result: MailResult, outcome: Outcome)
    requires !result.Unavailable? && d in v.mail
    requires v.mail[d] == MailTask(c, if result.Accepted? then Sent else Refused)
    ensures MailEnabled(v, Answer(d, outcome))
    ensures MailNext(v, Answer(d, outcome)) == AfterReply(v, d, c, result, outcome)
  {
    assert v.queue + multiset{} == v.queue;
  }

  lemma ReplyingRuns(s: State, steps: seq<Step>, v: State, d: nat, c: Command, result: MailResult, outcome: Outcome)
    requires Run(s, steps, v)
    requires !result.Unavailable? ==>
      d in v.mail && v.mail[d] == MailTask(c, if result.Accepted? then Sent else Refused)
    ensures Run(s, steps + Replying(d, result, outcome), AfterReply(v, d, c, result, outcome))
  {
    hide Run;
    if result.Unavailable? {
      assert steps + [] == steps;
    } else {
      ReplyStep(v, d, c, result, outcome);
      RunThen(s, steps, v, Notify(Answer(d, outcome)));
    }
  }

  lemma EndingRuns(s: State, steps: seq<Step>, w: State, d: nat, c: Command, settlement: Settlement)
    requires Run(s, steps, w)
    requires !settlement.Requeue? ==> d in w.mail && w.mail[d].command == c && w.mail[d].phase.Answered?
    ensures Run(s, steps + Ending(d, settlement), AfterDelivery(w, d, c, settlement))
  {
    hide Run;
    if settlement.Requeue? {
      assert steps + [] == steps;
    } else {
      RunThen(s, steps, w, Notify(EndMail(d, true)));
    }
  }

  /** Handling a delivery, others doing `others` between the mail and the reply and `later` between the reply and the
      settlement, is a run. What the broker was told decides whether the command leaves its queue, and it does so only
      after its reply is in the results queue. */
  lemma DeliveryIsARun(s: State, d: nat, c: Command, result: MailResult, outcome: Outcome, others: seq<Step>, v: State,
      later: seq<Step>, w: State) returns (u: State)
    requires Enabled(s, Notify(TakeCommand(d, c)))
    requires Run(AfterMail(s, d, c, result), others, v) && Waits(AfterMail(s, d, c, result), d, v)
    requires Run(AfterReply(v, d, c, result, outcome), later, w) && Waits(AfterReply(v, d, c, result, outcome), d, w)
    ensures Run(s, Handling(d, c, result, outcome, others, later), u)
    ensures u == AfterDelivery(w, d, c, Settled(result, outcome))
    ensures !Settled(result, outcome).Requeue? ==>
      Result(ReplyTo(c, result.Accepted?)) in AfterReply(v, d, c, result, outcome).queue
  {
    hide Run, Enabled, Next;
    MailingRuns(s, d, c, result);
    RunConcat(s, Mailing(d, c, result), AfterMail(s, d, c, result), others, v);
    var steps := Mailing(d, c, result) + others;
    ReplyingRuns(s, steps, v, d, c, result, outcome);
    steps := steps + Replying(d, result, outcome);
    RunConcat(s, steps, AfterReply(v, d, c, result, outcome), later, w);
    EndingRuns(s, steps + later, w, d, c, Settled(result, outcome));
    u := AfterDelivery(w, d, c, Settled(result, outcome));
  }
}
