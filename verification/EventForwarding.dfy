/** Forwarding of in-process server events under backpressure, with lag markers for what was dropped. */
module EventForwarding {
  import opened Prelude
  import opened Channels

  const USIZE_MAX: nat := 0xffff_ffff_ffff_ffff

  datatype Notification =
    | TurnCompleted(body: string)
    | ThreadSettingsUpdated(body: string)
    | ItemCompleted(body: string)
    | AgentMessageDelta(body: string)
    | ReasoningSummaryTextDelta(body: string)
    | ReasoningTextDelta(body: string)
    | OtherNotification(body: string)

  datatype Event = Lagged(skipped: nat) | ServerNotification(notification: Notification) | ServerRequest(id: nat)

  predicate RequiresDelivery(event: Event) {
    event.ServerNotification? && !event.notification.OtherNotification?
  }

  datatype Forwarder = Forwarder(channel: Channel<Event>, skipped: nat, rejected: seq<nat>)

  datatype ForwardResult = Continue | DisableStream

  // The outcome of forwarding one event; `dropped` says the event was given up while the stream went on.
  datatype Outcome = Outcome(after: Forwarder, result: ForwardResult, dropped: bool)

  function SaturatingIncrement(n: nat): nat { if n < USIZE_MAX then n + 1 else USIZE_MAX }

  function Dropped(f: Forwarder, event: Event): Outcome {
    Outcome(f.(skipped := SaturatingIncrement(f.skipped),
               rejected := f.rejected + (if event.ServerRequest? then [event.id] else [])), Continue, true)
  }

  function Deliver(f: Forwarder, event: Event, rx: Receiver): Outcome {
    if RequiresDelivery(event) then
      var (channel, ok) := AwaitSend(f.channel, rx, event);
      Outcome(f.(channel := channel), if ok then Continue else DisableStream, false)
    else
      var (channel, r) := TrySend(f.channel, rx, event);
      match r
      case Accepted => Outcome(f.(channel := channel), Continue, false)
      case Full => Dropped(f.(channel := channel), event)
      case Closed => Outcome(f.(channel := channel), DisableStream, false)
  }

  // `forward_in_process_event`; `marker` and `body` tell what the receiver does before each send.
  function Forward(f: Forwarder, event: Event, marker: Receiver, body: Receiver): Outcome {
    if f.skipped == 0 then Deliver(f, event, body)
    else if RequiresDelivery(event) then
      var (channel, ok) := AwaitSend(f.channel, marker, Lagged(f.skipped));
      if ok then Deliver(f.(channel := channel, skipped := 0), event, body)
      else Outcome(f.(channel := channel), DisableStream, false)
    else
      var (channel, r) := TrySend(f.channel, marker, Lagged(f.skipped));
      match r
      case Accepted => Deliver(f.(channel := channel, skipped := 0), event, body)
      case Full => Dropped(f.(channel := channel), event)
      case Closed => Outcome(f.(channel := channel), DisableStream, false)
  }

  class EventForwarder {
    var channel: Channel<Event>
    var skippedEvents: nat
    var rejected: seq<nat>

    ghost function View(): Forwarder reads this { Forwarder(channel, skippedEvents, rejected) }

    constructor (capacity: nat)
      ensures View() == Forwarder(Channel(capacity, [], 0, false), 0, [])
    {
      channel, skippedEvents, rejected := Channel(capacity, [], 0, false), 0, [];
    }

    method Send(event: Event, rx: Receiver) returns (ok: bool)
      modifies this`channel
      ensures (channel, ok) == AwaitSend(old(channel), rx, event)
    {
      var (after, accepted) := AwaitSend(channel, rx, event);
      channel := after;
      return accepted;
    }

    method TrySendNow(event: Event, rx: Receiver) returns (r: SendResult)
      modifies this`channel
      ensures (channel, r) == TrySend(old(channel), rx, event)
    {
      var (after, result) := TrySend(channel, rx, event);
      channel := after;
      return result;
    }

    method ForwardInProcessEvent(event: Event, marker: Receiver, body: Receiver) returns (r: ForwardResult)
      modifies this
      ensures View() == Forward(old(View()), event, marker, body).after
      ensures r == Forward(old(View()), event, marker, body).result
    {
      if skippedEvents > 0 {
        if RequiresDelivery(event) {
          var ok := Send(Lagged(skippedEvents), marker);
          if !ok { return DisableStream; }
          skippedEvents := 0;
        } else {
          var sent := TrySendNow(Lagged(skippedEvents), marker);
          match sent {
            case Accepted => skippedEvents := 0;
            case Full =>
              skippedEvents := SaturatingIncrement(skippedEvents);
              rejected := rejected + (if event.ServerRequest? then [event.id] else []);
              return Continue;
            case Closed => return DisableStream;
          }
        }
      }
      if RequiresDelivery(event) {
        var ok := Send(event, body);
        return if ok then Continue else DisableStream;
      }
      var sent := TrySendNow(event, body);
      match sent {
        case Accepted => return Continue;
        case Full =>
          skippedEvents := SaturatingIncrement(skippedEvents);
          rejected := rejected + (if event.ServerRequest? then [event.id] else []);
          return Continue;
        case Closed => return DisableStream;
      }
    }
  }

  // ---------- accounting ----------

  datatype Cell = Hole | Got(event: Event)

  function Holes(n: nat): seq<Cell> { seq(n, _ => Hole) }

  function ExpandOne(event: Event): seq<Cell> {
    if event.Lagged? then Holes(event.skipped) else [Got(event)]
  }

  // The forwarded stream with every lag marker opened into that many holes.
  function Expand(events: seq<Event>): seq<Cell> {
    if events == [] then [] else Expand(events[..|events| - 1]) + ExpandOne(events[|events| - 1])
  }

  // Everything the forwarder accounts for: what was forwarded, then the holes not yet announced.
  function Account(f: Forwarder): seq<Cell> { Expand(f.channel.sent) + Holes(f.skipped) }

  lemma ExpandSnoc(events: seq<Event>, event: Event)
    ensures Expand(events + [event]) == Expand(events) + ExpandOne(event)
  {
    assert (events + [event])[..|events|] == events;
  }

  // Announcing the skipped events moves holes into the stream and changes nothing else.
  lemma MarkerAccounts(f: Forwarder, channel: Channel<Event>)
    requires channel.sent == f.channel.sent + [Lagged(f.skipped)]
    ensures Account(f.(channel := channel, skipped := 0)) == Account(f)
  {
    ExpandSnoc(f.channel.sent, Lagged(f.skipped));
  }

  lemma DropAccounts(f: Forwarder, event: Event)
    requires f.skipped < USIZE_MAX
    ensures Account(Dropped(f, event).after) == Account(f) + [Hole]
  {
    assert Holes(f.skipped + 1) == Holes(f.skipped) + [Hole];
  }

  lemma SentAccounts(f: Forwarder, channel: Channel<Event>, event: Event)
    requires f.skipped == 0 && channel.sent == f.channel.sent + [event]
    ensures Account(f.(channel := channel)) == Account(f) + ExpandOne(event)
  {
    ExpandSnoc(f.channel.sent, event);
    assert Holes(0) == [];
  }

  lemma UnsentAccounts(f: Forwarder, channel: Channel<Event>)
    requires channel.sent == f.channel.sent
    ensures Account(f.(channel := channel)) == Account(f)
  {
  }

  lemma DeliverAccounts(f: Forwarder, event: Event, rx: Receiver)
    requires f.skipped == 0 && Wellformed(f.channel)
    ensures var o := Deliver(f, event, rx);
            Account(o.after) == Account(f) + Share(o, event)
  {
    if RequiresDelivery(event) {
      var (channel, ok) := AwaitSend(f.channel, rx, event);
      if ok { SentAccounts(f, channel, event); } else { UnsentAccounts(f, channel); }
    } else {
      var (channel, r) := TrySend(f.channel, rx, event);
      if r.Accepted? {
        SentAccounts(f, channel, event);
      } else {
        UnsentAccounts(f, channel);
        if r.Full? { DropAccounts(f.(channel := channel), event); }
      }
    }
  }

  // Everything but the account: who is dropped, when, and what the sender learns.
  predicate Disciplined(f: Forwarder, event: Event, o: Outcome) {
    && Wellformed(o.after.channel)
    && (RequiresDelivery(event) ==> !o.dropped)
    && (o.dropped ==> o.result.Continue? && |o.after.channel.sent| == o.after.channel.taken + o.after.channel.capacity)
    && o.after.rejected == f.rejected + (if o.dropped && event.ServerRequest? then [event.id] else [])
    && (o.result.DisableStream? <==> o.after.channel.closed)
    && o.after.skipped <= f.skipped + 1 && o.after.skipped <= USIZE_MAX
  }

  lemma DeliverDisciplined(f: Forwarder, event: Event, rx: Receiver)
    requires Wellformed(f.channel) && f.skipped <= USIZE_MAX
    ensures Disciplined(f, event, Deliver(f, event, rx))
  {
    SendsKeepWellformed(f.channel, rx, event);
  }

  lemma ForwardDisciplined(f: Forwarder, event: Event, marker: Receiver, body: Receiver)
    requires Wellformed(f.channel) && f.skipped <= USIZE_MAX
    ensures Disciplined(f, event, Forward(f, event, marker, body))
  {
    SendsKeepWellformed(f.channel, marker, Lagged(f.skipped));
    var (waited, _) := AwaitSend(f.channel, marker, Lagged(f.skipped));
    var (tried, _) := TrySend(f.channel, marker, Lagged(f.skipped));
    DeliverDisciplined(f, event, body);
    DeliverDisciplined(f.(channel := waited, skipped := 0), event, body);
    DeliverDisciplined(f.(channel := tried, skipped := 0), event, body);
  }

  function Share(o: Outcome, event: Event): seq<Cell> {
    if o.result.DisableStream? then [] else if o.dropped then [Hole] else ExpandOne(event)
  }

  // The drop found the counter at its maximum and went uncounted.
  predicate Loses(f: Forwarder, o: Outcome) {
    o.dropped && f.skipped == USIZE_MAX && o.after.skipped == USIZE_MAX
  }

  // A drop adds a hole, or nothing once the counter is full.
  lemma FullAccounts(f: Forwarder, channel: Channel<Event>, event: Event)
    requires channel.sent == f.channel.sent && f.skipped <= USIZE_MAX
    ensures Account(Dropped(f.(channel := channel), event).after) ==
            Account(f) + (if f.skipped == USIZE_MAX then [] else [Hole])
  {
    UnsentAccounts(f, channel);
    if f.skipped < USIZE_MAX { DropAccounts(f.(channel := channel), event); }
  }

  lemma AnnouncedAccounts(f: Forwarder, channel: Channel<Event>, event: Event, body: Receiver)
    requires channel.sent == f.channel.sent + [Lagged(f.skipped)] && Wellformed(channel)
    ensures var o := Deliver(f.(channel := channel, skipped := 0), event, body);
            Account(o.after) == Account(f) + Share(o, event) && o.after.skipped <= 1
  {
    MarkerAccounts(f, channel);
    DeliverAccounts(f.(channel := channel, skipped := 0), event, body);
  }

  /** One forwarded event grows the account by exactly the event, or by one hole if it was dropped, or not at all if the
      drop went uncounted. */
  lemma ForwardAccounts(f: Forwarder, event: Event, marker: Receiver, body: Receiver)
    requires Wellformed(f.channel) && f.skipped <= USIZE_MAX
    ensures var o := Forward(f, event, marker, body);
            Account(o.after) == Account(f) + (if Loses(f, o) then [] else Share(o, event))
  {
    SendsKeepWellformed(f.channel, marker, Lagged(f.skipped));
    if f.skipped == 0 {
      DeliverAccounts(f, event, body);
    } else if RequiresDelivery(event) {
      var (channel, ok) := AwaitSend(f.channel, marker, Lagged(f.skipped));
      if ok { AnnouncedAccounts(f, channel, event, body); } else { UnsentAccounts(f, channel); }
    } else {
      var (channel, r) := TrySend(f.channel, marker, Lagged(f.skipped));
      match r
      case Accepted => AnnouncedAccounts(f, channel, event, body);
      case Full => FullAccounts(f, channel, event);
      case Closed => UnsentAccounts(f, channel);
    }
  }

  // ---------- whole runs ----------

  datatype Input = Input(event: Event, marker: Receiver, body: Receiver)

  // The forwarder after a run, which of the processed events were dropped, how many drops the counter missed, and
  // whether the stream is still enabled.
  datatype Run = Run(after: Forwarder, dropped: seq<bool>, lost: nat, enabled: bool)

  function Continued(before: Run, o: Outcome): Run {
    if o.result.DisableStream? then Run(o.after, before.dropped, before.lost, false)
    else Run(o.after, before.dropped + [o.dropped], before.lost + (if Loses(before.after, o) then 1 else 0), true)
  }

  // One more event, unless the stream was disabled.
  function Extended(before: Run, last: Input): Run {
    if !before.enabled then before else Continued(before, Forward(before.after, last.event, last.marker, last.body))
  }

  function RunAll(f: Forwarder, inputs: seq<Input>): Run {
    if inputs == [] then Run(f, [], 0, true)
    else Extended(RunAll(f, inputs[..|inputs| - 1]), inputs[|inputs| - 1])
  }

  // The input with exactly the dropped events replaced by holes.
  function Expected(inputs: seq<Input>, dropped: seq<bool>): seq<Cell>
    requires |inputs| == |dropped|
  {
    if inputs == [] then []
    else
      var n := |inputs| - 1;
      Expected(inputs[..n], dropped[..n]) + (if dropped[n] then [Hole] else ExpandOne(inputs[n].event))
  }

  function DroppedRequests(inputs: seq<Input>, dropped: seq<bool>): seq<nat>
    requires |inputs| == |dropped|
  {
    if inputs == [] then []
    else
      var n := |inputs| - 1;
      DroppedRequests(inputs[..n], dropped[..n]) +
      (if dropped[n] && inputs[n].event.ServerRequest? then [inputs[n].event.id] else [])
  }

  predicate IsGot(cell: Cell) { cell.Got? }

  // The forwarded events, and the holes up to those the counter missed.
  ghost predicate Accounts(account: seq<Cell>, expected: seq<Cell>, lost: nat) {
    && |account| + lost == |expected|
    && (lost == 0 ==> account == expected)
    && Filter(account, IsGot) == Filter(expected, IsGot)
  }

  ghost predicate RunFits(run: Run, inputs: seq<Input>) {
    var n := |run.dropped|;
    && n <= |inputs| && Wellformed(run.after.channel)
    && run.after.skipped <= |inputs| && run.after.skipped <= USIZE_MAX
    && Accounts(Account(run.after), Expected(inputs[..n], run.dropped), run.lost)
    && (run.lost > 0 ==> |inputs| > USIZE_MAX)
    && run.after.rejected == DroppedRequests(inputs[..n], run.dropped)
    && (forall i :: 0 <= i < n && RequiresDelivery(inputs[i].event) ==> !run.dropped[i])
    && (run.enabled <==> n == |inputs|)
    && (run.enabled <==> !run.after.channel.closed)
  }

  lemma AccountsGrow(account: seq<Cell>, expected: seq<Cell>, lost: nat, share: seq<Cell>)
    requires Accounts(account, expected, lost)
    ensures Accounts(account + share, expected + share, lost)
  {
    FilterConcat(account, share, IsGot);
    FilterConcat(expected, share, IsGot);
  }

  lemma AccountsLose(account: seq<Cell>, expected: seq<Cell>, lost: nat)
    requires Accounts(account, expected, lost)
    ensures Accounts(account, expected + [Hole], lost + 1)
  {
    FilterConcat(expected, [Hole], IsGot);
    FilterNothing([Hole], IsGot);
  }

  lemma ExpectedSnoc(inputs: seq<Input>, dropped: seq<bool>, last: Input, drop: bool)
    requires |inputs| == |dropped|
    ensures Expected(inputs + [last], dropped + [drop]) ==
            Expected(inputs, dropped) + (if drop then [Hole] else ExpandOne(last.event))
    ensures DroppedRequests(inputs + [last], dropped + [drop]) ==
            DroppedRequests(inputs, dropped) + (if drop && last.event.ServerRequest? then [last.event.id] else [])
  {
    assert (inputs + [last])[..|inputs|] == inputs && (dropped + [drop])[..|dropped|] == dropped;
  }

  // What one event did, as far as a run is concerned.
  ghost predicate Fits(before: Run, last: Input, o: Outcome) {
    && Disciplined(before.after, last.event, o)
    && Account(o.after) == Account(before.after) + (if Loses(before.after, o) then [] else Share(o, last.event))
  }

  lemma StopFits(before: Run, inputs: seq<Input>, last: Input, o: Outcome)
    requires RunFits(before, inputs) && before.enabled && Fits(before, last, o) && o.result.DisableStream?
    ensures RunFits(Continued(before, o), inputs + [last])
  {
    assert (inputs + [last])[..|inputs|] == inputs[..|inputs|] == inputs;
    assert Account(o.after) == Account(before.after);
  }

  lemma GoOnAccounts(before: Run, inputs: seq<Input>, last: Input, o: Outcome)
    requires RunFits(before, inputs) && before.enabled && Fits(before, last, o) && o.result.Continue?
    ensures var run := Continued(before, o);
            Accounts(Account(o.after), Expected(inputs + [last], run.dropped), run.lost)
  {
    assert inputs[..|inputs|] == inputs;
    ExpectedSnoc(inputs, before.dropped, last, o.dropped);
    if Loses(before.after, o) {
      AccountsLose(Account(before.after), Expected(inputs, before.dropped), before.lost);
      assert Account(o.after) == Account(before.after);
    } else {
      AccountsGrow(Account(before.after), Expected(inputs, before.dropped), before.lost, Share(o, last.event));
    }
  }

  lemma GoOnFits(before: Run, inputs: seq<Input>, last: Input, o: Outcome)
    requires RunFits(before, inputs) && before.enabled && Fits(before, last, o) && o.result.Continue?
    ensures RunFits(Continued(before, o), inputs + [last])
  {
    var all := inputs + [last];
    GoOnAccounts(before, inputs, last, o);
    ExpectedSnoc(inputs, before.dropped, last, o.dropped);
    assert inputs[..|inputs|] == inputs && all[..|all|] == all;
  }

  lemma RunStep(before: Run, inputs: seq<Input>, last: Input)
    requires RunFits(before, inputs) && before.enabled
    ensures RunFits(Extended(before, last), inputs + [last])
  {
    ForwardAccounts(before.after, last.event, last.marker, last.body);
    ForwardDisciplined(before.after, last.event, last.marker, last.body);
    var o := Forward(before.after, last.event, last.marker, last.body);
    if o.result.DisableStream? { StopFits(before, inputs, last, o); } else { GoOnFits(before, inputs, last, o); }
  }

  lemma RunAllSnoc(f: Forwarder, inputs: seq<Input>, last: Input)
    ensures RunAll(f, inputs + [last]) == Extended(RunAll(f, inputs), last)
  {
    assert (inputs + [last])[..|inputs|] == inputs;
  }

  lemma StoppedStays(run: Run, inputs: seq<Input>, last: Input)
    requires RunFits(run, inputs) && !run.enabled
    ensures RunFits(run, inputs + [last])
  {
    assert (inputs + [last])[..|run.dropped|] == inputs[..|run.dropped|];
  }

  function Opening(capacity: nat): Forwarder { Forwarder(Channel(capacity, [], 0, false), 0, []) }

  lemma {:induction false} RunFitsAlways(capacity: nat, inputs: seq<Input>)
    requires 0 < capacity
    ensures RunFits(RunAll(Opening(capacity), inputs), inputs)
    decreases |inputs|
  {
    if inputs == [] {
      assert Account(Opening(capacity)) == [];
    } else {
      var init, last := inputs[..|inputs| - 1], inputs[|inputs| - 1];
      var before := RunAll(Opening(capacity), init);
      RunFitsAlways(capacity, init);
      assert inputs == init + [last];
      RunAllSnoc(Opening(capacity), init, last);
      if before.enabled { RunStep(before, init, last); } else { StoppedStays(before, init, last); }
    }
  }

  lemma {:induction false} GotIsSent(events: seq<Event>, event: Event)
    requires !event.Lagged?
    ensures Got(event) in Expand(events) <==> event in events
  {
    if events != [] {
      var init, last := events[..|events| - 1], events[|events| - 1];
      GotIsSent(init, event);
      assert events == init + [last];
    }
  }

  // An event was processed with this outcome.
  ghost predicate Processed(inputs: seq<Input>, dropped: seq<bool>, event: Event, drop: bool) {
    exists i :: 0 <= i < |inputs| && i < |dropped| && inputs[i].event == event && dropped[i] == drop
  }

  lemma ProcessedSnoc(inputs: seq<Input>, dropped: seq<bool>, event: Event, drop: bool)
    requires inputs != [] && |inputs| == |dropped|
    ensures var n := |inputs| - 1;
            Processed(inputs, dropped, event, drop) <==>
            Processed(inputs[..n], dropped[..n], event, drop) || (inputs[n].event == event && dropped[n] == drop)
  {
    var n := |inputs| - 1;
    if Processed(inputs[..n], dropped[..n], event, drop) {
      var i :| 0 <= i < n && inputs[..n][i].event == event && dropped[..n][i] == drop;
      assert inputs[i].event == event && dropped[i] == drop;
    }
    if Processed(inputs, dropped, event, drop) {
      var i :| 0 <= i < |inputs| && inputs[i].event == event && dropped[i] == drop;
      if i < n { assert inputs[..n][i].event == event && dropped[..n][i] == drop; }
    }
  }

  lemma {:induction false} ExpectedHas(inputs: seq<Input>, dropped: seq<bool>, event: Event)
    requires |inputs| == |dropped| && !event.Lagged?
    ensures Got(event) in Expected(inputs, dropped) <==> Processed(inputs, dropped, event, false)
  {
    if inputs != [] {
      var n := |inputs| - 1;
      ExpectedHas(inputs[..n], dropped[..n], event);
      ProcessedSnoc(inputs, dropped, event, false);
    }
  }

  lemma {:induction false} RejectedHas(inputs: seq<Input>, dropped: seq<bool>, id: nat)
    requires |inputs| == |dropped|
    ensures id in DroppedRequests(inputs, dropped) <==> Processed(inputs, dropped, ServerRequest(id), true)
  {
    if inputs != [] {
      var n := |inputs| - 1;
      RejectedHas(inputs[..n], dropped[..n], id);
      ProcessedSnoc(inputs, dropped, ServerRequest(id), true);
    }
  }

  // A server request is forwarded if it was processed and not dropped, and rejected if it was processed and dropped.
  ghost predicate Settled(run: Run, inputs: seq<Input>, id: nat)
    requires |run.dropped| <= |inputs|
  {
    var done := inputs[..|run.dropped|];
    && (ServerRequest(id) in run.after.channel.sent <==> Processed(done, run.dropped, ServerRequest(id), false))
    && (id in run.after.rejected <==> Processed(done, run.dropped, ServerRequest(id), true))
  }

  lemma FitsSettles(run: Run, inputs: seq<Input>, id: nat)
    requires RunFits(run, inputs)
    ensures Settled(run, inputs, id)
  {
    var done := inputs[..|run.dropped|];
    var cell := Got(ServerRequest(id));
    ExpectedHas(done, run.dropped, ServerRequest(id));
    RejectedHas(done, run.dropped, id);
    GotIsSent(run.after.channel.sent, ServerRequest(id));
    FilterMembers(Account(run.after), IsGot);
    FilterMembers(Expected(done, run.dropped), IsGot);
    assert cell in Account(run.after) <==> cell in Expected(done, run.dropped);
    assert cell in Account(run.after) <==> cell in Expand(run.after.channel.sent);
  }

  /** Lag markers account exactly for every gap, over every run: the forwarded stream, markers opened, followed by the
      unannounced holes is the processed input with the dropped events as holes, exactly when no drop met a counter at
      `usize::MAX`, which takes more events than that; the forwarded events are right in any case. Only events that
      need no delivery are dropped, dropped server requests are rejected in order, the forwarded and the rejected
      requests are exactly the processed ones, and processing stops early exactly when an event met a channel that the
      consumer had closed. */
  lemma RunAccounts(capacity: nat, inputs: seq<Input>)
    requires 0 < capacity
    ensures var run := RunAll(Opening(capacity), inputs);
            && RunFits(run, inputs)
            && (Account(run.after) == Expected(inputs[..|run.dropped|], run.dropped) <==> run.lost == 0)
            && forall id :: Settled(run, inputs, id)
  {
    RunFitsAlways(capacity, inputs);
    forall id ensures Settled(RunAll(Opening(capacity), inputs), inputs, id) {
      FitsSettles(RunAll(Opening(capacity), inputs), inputs, id);
    }
  }

  lemma ProcessedOrStopped(f: Forwarder, inputs: seq<Input>)
    requires inputs != []
    ensures var before, run := RunAll(f, inputs[..|inputs| - 1]), RunAll(f, inputs);
            && |before.dropped| <= |run.dropped| && (!before.enabled ==> run == before)
  {
  }

  /** An event is processed exactly when the channel is still open once it has been handled. */
  lemma {:induction false} ProcessedWhileOpen(capacity: nat, inputs: seq<Input>, i: nat)
    requires 0 < capacity && i < |inputs|
    ensures i < |RunAll(Opening(capacity), inputs).dropped| <==>
            !RunAll(Opening(capacity), inputs[..i + 1]).after.channel.closed
    decreases |inputs|
  {
    var init := inputs[..|inputs| - 1];
    RunFitsAlways(capacity, inputs);
    if i == |init| {
      assert inputs[..i + 1] == inputs;
    } else {
      assert init[..i + 1] == inputs[..i + 1];
      ProcessedWhileOpen(capacity, init, i);
      RunFitsAlways(capacity, init);
      ProcessedOrStopped(Opening(capacity), inputs);
    }
  }

  predicate DistinctRequests(inputs: seq<Input>) {
    forall i, j :: 0 <= i < j < |inputs| && inputs[i].event.ServerRequest? ==> inputs[i].event != inputs[j].event
  }

  predicate NoRepeats(ids: seq<nat>) { forall a, b :: 0 <= a < b < |ids| ==> ids[a] != ids[b] }

  lemma NotBefore(inputs: seq<Input>, dropped: seq<bool>, n: nat)
    requires n < |inputs| && n <= |dropped| && inputs[n].event.ServerRequest? && DistinctRequests(inputs)
    ensures !Processed(inputs[..n], dropped[..n], inputs[n].event, true)
  {
    assert forall i :: 0 <= i < n ==> inputs[..n][i].event == inputs[i].event;
  }

  lemma {:induction false} RejectedOnce(inputs: seq<Input>, dropped: seq<bool>)
    requires |inputs| == |dropped| && DistinctRequests(inputs)
    ensures NoRepeats(DroppedRequests(inputs, dropped))
  {
    if inputs != [] {
      var n := |inputs| - 1;
      RejectedOnce(inputs[..n], dropped[..n]);
      if dropped[n] && inputs[n].event.ServerRequest? {
        NotBefore(inputs, dropped, n);
        RejectedHas(inputs[..n], dropped[..n], inputs[n].event.id);
      }
    }
  }

  // Forwarded and never rejected, rejected once and never forwarded, or neither.
  ghost predicate FateKnown(run: Run, inputs: seq<Input>, i: nat)
    requires i < |inputs| && inputs[i].event.ServerRequest?
  {
    var n := |run.dropped|;
    && NoRepeats(run.after.rejected)
    && (inputs[i].event in run.after.channel.sent <==> i < n && !run.dropped[i])
    && (inputs[i].event.id in run.after.rejected <==> i < n && run.dropped[i])
  }

  /** The fate of each server request when ids are not reused: forwarded and never rejected, or rejected once and never
      forwarded, while the channel is open once the request was handled; neither from the request on that met the
      closed channel. */
  lemma ServerRequestFates(capacity: nat, inputs: seq<Input>, i: nat)
    requires 0 < capacity && DistinctRequests(inputs)
    requires i < |inputs| && inputs[i].event.ServerRequest?
    ensures var run := RunAll(Opening(capacity), inputs);
            && FateKnown(run, inputs, i)
            && (i < |run.dropped| <==> !RunAll(Opening(capacity), inputs[..i + 1]).after.channel.closed)
  {
    RunAccounts(capacity, inputs);
    FitsTellsFate(RunAll(Opening(capacity), inputs), inputs, i);
    ProcessedWhileOpen(capacity, inputs, i);
  }

  lemma FitsTellsFate(run: Run, inputs: seq<Input>, i: nat)
    requires RunFits(run, inputs) && DistinctRequests(inputs) && i < |inputs| && inputs[i].event.ServerRequest?
    ensures FateKnown(run, inputs, i)
  {
    RejectedOnce(inputs[..|run.dropped|], run.dropped);
    FitsSettles(run, inputs, inputs[i].event.id);
    OneOccurrence(inputs, run.dropped, i, false);
    OneOccurrence(inputs, run.dropped, i, true);
  }

  lemma OneOccurrence(inputs: seq<Input>, dropped: seq<bool>, i: nat, drop: bool)
    requires |dropped| <= |inputs| && DistinctRequests(inputs) && i < |inputs| && inputs[i].event.ServerRequest?
    ensures Processed(inputs[..|dropped|], dropped, inputs[i].event, drop) <==> i < |dropped| && dropped[i] == drop
  {
    var done := inputs[..|dropped|];
    if Processed(done, dropped, inputs[i].event, drop) {
      var j :| 0 <= j < |done| && done[j].event == inputs[i].event && dropped[j] == drop;
      assert inputs[j].event == inputs[i].event;
    }
    if i < |dropped| && dropped[i] == drop { assert done[i].event == inputs[i].event; }
  }

  /** The client's loop over server events: the class after all events is the run's forwarder. */
  method ForwardAll(capacity: nat, inputs: seq<Input>) returns (f: EventForwarder, enabled: bool)
    requires 0 < capacity
    ensures fresh(f) && f.View() == RunAll(Opening(capacity), inputs).after
    ensures enabled == RunAll(Opening(capacity), inputs).enabled
  {
    f := new EventForwarder(capacity);
    enabled := true;
    for n := 0 to |inputs|
      invariant fresh(f) && f.View() == RunAll(Opening(capacity), inputs[..n]).after
      invariant enabled == RunAll(Opening(capacity), inputs[..n]).enabled
    {
      assert inputs[..n + 1] == inputs[..n] + [inputs[n]];
      RunAllSnoc(Opening(capacity), inputs[..n], inputs[n]);
      if enabled {
        var r := f.ForwardInProcessEvent(inputs[n].event, inputs[n].marker, inputs[n].body);
        if r.DisableStream? { enabled := false; }
      }
    }
    assert inputs[..|inputs|] == inputs;
  }

  // Completed turns and items, settings and the three kinds of text deltas.
  predicate MustArrive(event: Event) {
    event.ServerNotification? &&
    match event.notification
    case TurnCompleted(_) => true
    case ThreadSettingsUpdated(_) => true
    case ItemCompleted(_) => true
    case AgentMessageDelta(_) => true
    case ReasoningSummaryTextDelta(_) => true
    case ReasoningTextDelta(_) => true
    case OtherNotification(_) => false
  }

  /** In every run the notifications of these six kinds are forwarded as long as the channel is open, never dropped. */
  lemma NeverDropped(capacity: nat, inputs: seq<Input>, i: nat)
    requires 0 < capacity && i < |inputs| && MustArrive(inputs[i].event)
    requires !RunAll(Opening(capacity), inputs[..i + 1]).after.channel.closed
    ensures var run := RunAll(Opening(capacity), inputs);
            i < |run.dropped| && !run.dropped[i] && inputs[i].event in run.after.channel.sent
  {
    var run := RunAll(Opening(capacity), inputs);
    RunFitsAlways(capacity, inputs);
    ProcessedWhileOpen(capacity, inputs, i);
    FitsForwards(run, inputs, i);
  }

  lemma FitsForwards(run: Run, inputs: seq<Input>, i: nat)
    requires RunFits(run, inputs) && i < |run.dropped| && MustArrive(inputs[i].event)
    ensures !run.dropped[i] && inputs[i].event in run.after.channel.sent
  {
    var done, event := inputs[..|run.dropped|], inputs[i].event;
    assert RequiresDelivery(event);
    assert done[i].event == event && Processed(done, run.dropped, event, false);
    ExpectedHas(done, run.dropped, event);
    GotIsSent(run.after.channel.sent, event);
    FilterMembers(Account(run.after), IsGot);
    FilterMembers(Expected(done, run.dropped), IsGot);
    assert Got(event) in Account(run.after);
  }

  // Any other event is dropped once the channel is full.
  lemma OthersAreDropped(event: Event)
    requires !MustArrive(event)
    ensures var full := Forwarder(Channel(1, [Lagged(1)], 0, false), 0, []);
            Forward(full, event, Receiver(0, false), Receiver(0, false)).dropped
  {
  }

  // The request that meets the closed channel is neither forwarded nor rejected.
  lemma ClosingRequestExample()
    ensures var quiet, closing := Receiver(0, false), Receiver(0, true);
            var run := RunAll(Opening(1), [Input(ServerRequest(7), quiet, closing)]);
            !run.enabled && run.after.channel.sent == [] && run.after.rejected == []
  {
    RunAllSnoc(Opening(1), [], Input(ServerRequest(7), Receiver(0, false), Receiver(0, true)));
  }
}
