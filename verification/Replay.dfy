/** Activation and unsubscription events read as updates of a map from (e-mail, repository) to token. */
module Replay {
  import opened Contracts

  type Subscribers = map<Key, Token>

  function Apply(m: Subscribers, event: Message): Subscribers {
    match event
    case Activated(key, token) => m[key := token]
    case Unsubscribed(key) => m - {key}
    case _ => m
  }

  function ApplyAll(m: Subscribers, events: seq<Message>): Subscribers
    decreases |events|
  {
    if events == [] then m else Apply(ApplyAll(m, events[..|events| - 1]), events[|events| - 1])
  }

  lemma ApplyOneMore(m: Subscribers, events: seq<Message>, event: Message)
    ensures ApplyAll(m, events + [event]) == Apply(ApplyAll(m, events), event)
  {
    assert (events + [event])[..|events|] == events;
  }

  /** `again` is `events` with every event delivered once or several times in a row. */
  ghost predicate Stutters(events: seq<Message>, again: seq<Message>)
    decreases |again|
  {
    if again == [] then events == []
    else
      && events != [] && again[|again| - 1] == events[|events| - 1]
      && (|| Stutters(events, again[..|again| - 1])
          || Stutters(events[..|events| - 1], again[..|again| - 1]))
  }

  lemma {:induction false} StutteringIsHarmless(m: Subscribers, events: seq<Message>, again: seq<Message>)
    requires Stutters(events, again)
    ensures ApplyAll(m, again) == ApplyAll(m, events)
    decreases |again|
  {
    if again != [] {
      var shorter := again[..|again| - 1];
      if Stutters(events, shorter) {
        StutteringIsHarmless(m, events, shorter);
        var before, last := ApplyAll(m, events[..|events| - 1]), events[|events| - 1];
        assert Apply(Apply(before, last), last) == Apply(before, last);
      } else {
        StutteringIsHarmless(m, events[..|events| - 1], shorter);
      }
    }
  }
}
