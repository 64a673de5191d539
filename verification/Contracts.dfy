/** The messages the three services exchange through the broker.

    Request ids are left out; encoding a message and decoding it again is the identity,
    so a queue holds the messages themselves. */
module Contracts {

  type Email = string
  type Name = string
  type Tag = string
  type Token = string

  /** The pair that is unique in both subscription tables: who, and for which repository. */
  datatype Key = Key(email: Email, repo: Name)

  /** Queue "confirmations": ask the notification service to mail a confirmation link. */
  datatype Command = Command(sagaId: nat, subscriptionId: nat, email: Email, repo: Name, token: Token)

  /** Queue "saga.confirmation.results": how sending the confirmation ended. */
  datatype Reply = Reply(sagaId: nat, subscriptionId: nat, success: bool, email: Email, repo: Name, token: Token)

  datatype Message =
    | Confirmation(command: Command)
    | Result(reply: Reply)
    | Activated(key: Key, token: Token)               // queue "subscription.activated"
    | Unsubscribed(key: Key)                          // queue "unsubscription.activated"
    | Notification(key: Key, tag: Tag, token: Token)  // queue "notifications"

  datatype Option<+T> = None | Some(value: T)

  /** What a publisher learns and what the broker did. `Unconfirmed` is an error on a message that
      was queued all the same: the confirm was lost on its way back. */
  datatype Outcome = Confirmed | Rejected | Unconfirmed

  predicate Queued(outcome: Outcome) {
    !outcome.Rejected?
  }

  /** What a consumer tells the broker about a delivery: done, deliver again, or drop. */
  datatype Settlement = Ack | Requeue | Discard
}
