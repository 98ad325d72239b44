/** Bounded multi-producer channels, seen from the sending side. */
module Channels {

  // Everything accepted so far, how much of it the receiver has taken, and whether the receiver is gone.
  datatype Channel<T> = Channel(capacity: nat, sent: seq<T>, taken: nat, closed: bool)

  // What the receiver does between two operations of the sender.
  datatype Receiver = Receiver(takes: nat, closes: bool)

  datatype SendResult = Accepted | Full | Closed

  predicate Wellformed<T>(ch: Channel<T>) {
    0 < ch.capacity && ch.taken <= |ch.sent| <= ch.taken + ch.capacity
  }

  function Observe<T>(ch: Channel<T>, rx: Receiver): Channel<T> {
    ch.(taken := if ch.taken + rx.takes <= |ch.sent| then ch.taken + rx.takes else |ch.sent|,
        closed := ch.closed || rx.closes)
  }

  // `try_send`.
  function TrySend<T>(ch: Channel<T>, rx: Receiver, value: T): (Channel<T>, SendResult) {
    var now := Observe(ch, rx);
    if now.closed then (now, Closed)
    else if |now.sent| >= now.taken + now.capacity then (now, Full)
    else (now.(sent := now.sent + [value]), Accepted)
  }

  // `send(..).await`: waits until the receiver makes room, unless it goes away.
  function AwaitSend<T>(ch: Channel<T>, rx: Receiver, value: T): (Channel<T>, bool) {
    var now := Observe(ch, rx);
    if now.closed then (now, false)
    else
      var room := if |now.sent| >= now.taken + now.capacity then now.(taken := |now.sent| + 1 - now.capacity) else now;
      (room.(sent := room.sent + [value]), true)
  }

  lemma SendsKeepWellformed<T>(ch: Channel<T>, rx: Receiver, value: T)
    requires Wellformed(ch)
    ensures Wellformed(TrySend(ch, rx, value).0) && Wellformed(AwaitSend(ch, rx, value).0)
  {}
}
