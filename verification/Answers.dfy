/** Exactly-once answers from a table of pending requests: the remote worker and the in-process runtime. */
module Answers {
  import opened Prelude

  type RequestId = string

  datatype Reason =
    | DuplicateId | WriteFailed | QueueFull | ProcessorClosed | WorkerGone | Lost(cause: RemoteInput) | RuntimeStopping
    | CommandDone(ok: bool)

  datatype Answer =
    | Result(id: RequestId, payload: string)
    | RpcError(id: RequestId, payload: string)
    | Local(reason: Reason)

  datatype Reply = Reply(sender: nat, answer: Answer)

  // The response senders waiting for an answer, and the answers given so far.
  datatype Table = Table(pending: map<RequestId, nat>, replies: seq<Reply>)

  function Direct(t: Table, sender: nat, reason: Reason): Table {
    t.(replies := t.replies + [Reply(sender, Local(reason))])
  }

  // A new request: refused without displacing the pending one if its id is in flight.
  function Register(t: Table, id: RequestId, sender: nat): Table {
    if id in t.pending then Direct(t, sender, DuplicateId) else t.(pending := t.pending[id := sender])
  }

  // An answer for an id; one that nobody waits for is dropped.
  function Settle(t: Table, id: RequestId, answer: Answer): Table {
    if id in t.pending then Table(t.pending - {id}, t.replies + [Reply(t.pending[id], answer)]) else t
  }

  // `asked` remembers which id each response sender came with, or none for commands without an id.
  type Asked = map<nat, Option<RequestId>>

  ghost predicate Answered(replies: seq<Reply>, sender: nat) {
    exists i :: 0 <= i < |replies| && replies[i].sender == sender
  }

  // The senders received are split into answered once and pending.
  ghost predicate Partitioned(t: Table, asked: Asked) {
    && (forall i, j :: 0 <= i < j < |t.replies| ==> t.replies[i].sender != t.replies[j].sender)
    && (forall i :: 0 <= i < |t.replies| ==> t.replies[i].sender in asked)
    && (forall id :: id in t.pending ==>
          t.pending[id] in asked && asked[t.pending[id]] == Some(id) && !Answered(t.replies, t.pending[id]))
    && (forall s :: s in asked ==>
          || Answered(t.replies, s)
          || (asked[s].Some? && asked[s].value in t.pending && t.pending[asked[s].value] == s))
  }

  // An answer taken from a response carries the id its sender asked with.
  predicate Truthful(replies: seq<Reply>, asked: Asked) {
    forall i :: 0 <= i < |replies| && !replies[i].answer.Local? ==>
      replies[i].sender in asked && asked[replies[i].sender] == Some(replies[i].answer.id)
  }

  lemma AnsweredSnoc(replies: seq<Reply>, r: Reply, s: nat)
    ensures Answered(replies + [r], s) <==> Answered(replies, s) || r.sender == s
  {
    var all := replies + [r];
    if Answered(replies, s) {
      var i :| 0 <= i < |replies| && replies[i].sender == s;
      assert all[i].sender == s;
    }
    if r.sender == s { assert all[|replies|].sender == s; }
  }

  lemma DirectPartitions(t: Table, asked: Asked, id: Option<RequestId>, sender: nat, reason: Reason)
    requires Partitioned(t, asked) && Truthful(t.replies, asked) && sender !in asked
    ensures var asked' := asked[sender := id];
            Partitioned(Direct(t, sender, reason), asked') && Truthful(Direct(t, sender, reason).replies, asked')
  {
    forall s { AnsweredSnoc(t.replies, Reply(sender, Local(reason)), s); }
  }

  lemma RegisterPartitions(t: Table, asked: Asked, id: RequestId, sender: nat)
    requires Partitioned(t, asked) && Truthful(t.replies, asked) && sender !in asked
    ensures var asked' := asked[sender := Some(id)];
            Partitioned(Register(t, id, sender), asked') && Truthful(Register(t, id, sender).replies, asked')
  {
    if id in t.pending {
      DirectPartitions(t, asked, Some(id), sender, DuplicateId);
    } else {
      assert !Answered(t.replies, sender);
    }
  }

  lemma SettlePartitions(t: Table, asked: Asked, id: RequestId, answer: Answer)
    requires Partitioned(t, asked) && Truthful(t.replies, asked) && (answer.Local? || answer.id == id)
    ensures Partitioned(Settle(t, id, answer), asked) && Truthful(Settle(t, id, answer).replies, asked)
  {
    if id in t.pending {
      forall s { AnsweredSnoc(t.replies, Reply(t.pending[id], answer), s); }
    }
  }

  // Every answer after the first `n` gives the reason.
  predicate AllTold(replies: seq<Reply>, n: nat, reason: Reason) {
    forall i :: n <= i < |replies| ==> replies[i].answer == Local(reason)
  }

  // The exit drain: every pending sender is told, in an arbitrary order.
  method DrainPending(t: Table, reason: Reason, ghost asked: Asked) returns (replies: seq<Reply>)
    requires Partitioned(t, asked) && Truthful(t.replies, asked)
    ensures Partitioned(Table(map[], replies), asked) && Truthful(replies, asked)
    ensures t.replies <= replies && AllTold(replies, |t.replies|, reason)
  {
    var left := t;
    while left.pending != map[]
      invariant Partitioned(left, asked) && Truthful(left.replies, asked)
      invariant t.replies <= left.replies && AllTold(left.replies, |t.replies|, reason)
      decreases left.pending.Keys
    {
      var id :| id in left.pending;
      SettlePartitions(left, asked, id, Local(reason));
      left := Settle(left, id, Local(reason));
    }
    replies := left.replies;
  }

  /** A table with nothing pending has answered every sender received, exactly once. */
  lemma NothingPendingAllAnswered(replies: seq<Reply>, asked: Asked, sender: nat)
    requires Partitioned(Table(map[], replies), asked) && sender in asked
    ensures exists i :: 0 <= i < |replies| && replies[i].sender == sender
                        && forall j :: 0 <= j < |replies| && replies[j].sender == sender ==> j == i
  {
    assert Answered(replies, sender);
    var i :| 0 <= i < |replies| && replies[i].sender == sender;
    forall j | 0 <= j < |replies| && replies[j].sender == sender ensures j == i {}
  }

  // ---------- the remote worker ----------

  datatype RemoteInput =
    | Request(id: RequestId, sender: nat, written: bool)
    | Command(sender: nat, ok: bool)                       // notify, resolve or reject: answered with the write result
    | Shutdown(sender: nat, ok: bool)
    | CommandsClosed
    | ResponseMessage(id: RequestId, payload: string)
    | ErrorMessage(id: RequestId, payload: string)
    | NotificationMessage(body: string, known: bool, delivered: bool)
    | RequestMessage(body: string, known: bool, delivered: bool)   // for an unknown one: the rejection was written
    | IgnoredFrame
    | InvalidJson | CloseFrame | TransportError | StreamEnded

  datatype AppEvent = NotificationEvent(body: string) | RequestEvent(body: string) | Disconnected(cause: RemoteInput)

  // `events` are the events offered to the consumer. Where the offer of a disconnection fails, the consumer is gone and
  // the source ignores it.
  datatype Remote = Remote(table: Table, asked: Asked, events: seq<AppEvent>, exited: bool)

  const REMOTE_START: Remote := Remote(Table(map[], []), map[], [], false)

  function Disconnect(r: Remote, cause: RemoteInput): Remote {
    r.(events := r.events + [Disconnected(cause)], exited := true)
  }

  // One round of the select loop.
  function RemoteStep(r: Remote, input: RemoteInput): Remote {
    if r.exited then r
    else match input
      case Request(id, sender, written) =>
        var known := r.(asked := r.asked[sender := Some(id)], table := Register(r.table, id, sender));
        if id in r.table.pending || written then known
        else Disconnect(known.(table := Settle(known.table, id, Local(WriteFailed))), input)
      case Command(sender, ok) =>
        r.(asked := r.asked[sender := None], table := Direct(r.table, sender, CommandDone(ok)))
      case Shutdown(sender, ok) =>
        r.(asked := r.asked[sender := None], table := Direct(r.table, sender, CommandDone(ok)), exited := true)
      case CommandsClosed => r.(exited := true)
      case ResponseMessage(id, payload) => r.(table := Settle(r.table, id, Result(id, payload)))
      case ErrorMessage(id, payload) => r.(table := Settle(r.table, id, RpcError(id, payload)))
      case NotificationMessage(body, known, delivered) =>
        if !known then r
        else if delivered then r.(events := r.events + [NotificationEvent(body)])
        else r.(exited := true)
      case RequestMessage(body, known, delivered) =>
        if known && delivered then r.(events := r.events + [RequestEvent(body)])
        else if known then r.(exited := true)
        else if delivered then r
        else Disconnect(r, input)
      case IgnoredFrame => r
      case _ => Disconnect(r, input)
  }

  function RemoteRun(inputs: seq<RemoteInput>): Remote {
    if inputs == [] then REMOTE_START else RemoteStep(RemoteRun(inputs[..|inputs| - 1]), inputs[|inputs| - 1])
  }

  // Each command comes with a response sender of its own.
  predicate OwnSenders(inputs: seq<RemoteInput>) {
    inputs == [] ||
    var before, last := inputs[..|inputs| - 1], inputs[|inputs| - 1];
    OwnSenders(before) &&
    ((last.Request? || last.Command? || last.Shutdown?) ==> last.sender !in RemoteRun(before).asked)
  }

  // A disconnection is the last event, and only after it has the worker left its loop that way.
  predicate DisconnectsLast(r: Remote) {
    forall i :: 0 <= i < |r.events| && r.events[i].Disconnected? ==> i == |r.events| - 1 && r.exited
  }

  lemma RemoteStepKeeps(r: Remote, input: RemoteInput)
    requires Partitioned(r.table, r.asked) && Truthful(r.table.replies, r.asked) && DisconnectsLast(r)
    requires (input.Request? || input.Command? || input.Shutdown?) ==> input.sender !in r.asked
    ensures var r' := RemoteStep(r, input);
            Partitioned(r'.table, r'.asked) && Truthful(r'.table.replies, r'.asked) && DisconnectsLast(r')
  {
    if !r.exited {
      match input
      case Request(id, sender, written) =>
        RegisterPartitions(r.table, r.asked, id, sender);
        if id !in r.table.pending && !written {
          SettlePartitions(Register(r.table, id, sender), r.asked[sender := Some(id)], id, Local(WriteFailed));
        }
      case Command(sender, ok) => DirectPartitions(r.table, r.asked, None, sender, CommandDone(ok));
      case Shutdown(sender, ok) => DirectPartitions(r.table, r.asked, None, sender, CommandDone(ok));
      case ResponseMessage(id, payload) => SettlePartitions(r.table, r.asked, id, Result(id, payload));
      case ErrorMessage(id, payload) => SettlePartitions(r.table, r.asked, id, RpcError(id, payload));
      case _ =>
    }
  }

  /** In every run of the remote worker the senders received are split into answered once and pending, answers carry
      the id asked with, and a disconnection event comes at most once and last. */
  lemma {:induction false} RemoteRunKeeps(inputs: seq<RemoteInput>)
    requires OwnSenders(inputs)
    ensures var r := RemoteRun(inputs);
            Partitioned(r.table, r.asked) && Truthful(r.table.replies, r.asked) && DisconnectsLast(r)
    decreases |inputs|
  {
    if inputs != [] {
      RemoteRunKeeps(inputs[..|inputs| - 1]);
      RemoteStepKeeps(RemoteRun(inputs[..|inputs| - 1]), inputs[|inputs| - 1]);
    }
  }

  // A duplicate id in flight is refused, and the pending sender keeps its place.
  lemma DuplicateDoesNotDisplace(r: Remote, id: RequestId, sender: nat, written: bool)
    requires !r.exited && id in r.table.pending
    ensures var r' := RemoteStep(r, Request(id, sender, written));
            && r'.table.pending == r.table.pending && !r'.exited
            && r'.table.replies == r.table.replies + [Reply(sender, Local(DuplicateId))]
  {}

  // ---------- what each answer and each event comes from ----------

  // The worker in state `r` answers the input with this reply.
  predicate Explains(r: Remote, input: RemoteInput, reply: Reply) {
    !r.exited &&
    match reply.answer
    case Result(id, payload) =>
      input == ResponseMessage(id, payload) && id in r.table.pending && r.table.pending[id] == reply.sender
    case RpcError(id, payload) =>
      input == ErrorMessage(id, payload) && id in r.table.pending && r.table.pending[id] == reply.sender
    case Local(reason) =>
      match reason
      case DuplicateId => input.Request? && input.sender == reply.sender && input.id in r.table.pending
      case WriteFailed =>
        input.Request? && input.sender == reply.sender && !input.written && input.id !in r.table.pending
      case CommandDone(ok) => input == Command(reply.sender, ok) || input == Shutdown(reply.sender, ok)
      case _ => false
  }

  // The worker in state `r` leaves its loop on the input, having offered a disconnection or not.
  predicate Breaks(r: Remote, input: RemoteInput) {
    !r.exited &&
    match input
    case Request(id, _, written) => !written && id !in r.table.pending
    case RequestMessage(_, known, delivered) => !known && !delivered
    case InvalidJson => true
    case CloseFrame => true
    case TransportError => true
    case StreamEnded => true
    case _ => false
  }

  predicate Leaves(r: Remote, input: RemoteInput) {
    || Breaks(r, input)
    || (!r.exited &&
        (input.Shutdown? || input.CommandsClosed?
         || (input.NotificationMessage? && input.known && !input.delivered)
         || (input.RequestMessage? && input.known && !input.delivered)))
  }

  predicate Offers(r: Remote, input: RemoteInput, event: AppEvent) {
    !r.exited &&
    match event
    case NotificationEvent(body) => input == NotificationMessage(body, true, true)
    case RequestEvent(body) => input == RequestMessage(body, true, true)
    case Disconnected(cause) => input == cause && Breaks(r, input)
  }

  lemma RepliesGrow(r: Remote, input: RemoteInput)
    ensures var told := RemoteStep(r, input).table.replies;
            && (told == r.table.replies ||
                exists reply :: told == r.table.replies + [reply] && Explains(r, input, reply))
            && forall reply :: Explains(r, input, reply) ==> told == r.table.replies + [reply]
  {
    var told := RemoteStep(r, input).table.replies;
    if told != r.table.replies {
      assert told == r.table.replies + [told[|told| - 1]] && Explains(r, input, told[|told| - 1]);
    }
  }

  lemma EventsGrow(r: Remote, input: RemoteInput)
    ensures var events := RemoteStep(r, input).events;
            && (events == r.events || exists event :: events == r.events + [event] && Offers(r, input, event))
            && forall event :: Offers(r, input, event) ==> events == r.events + [event]
    ensures RemoteStep(r, input).exited <==> r.exited || Leaves(r, input)
  {
    var events := RemoteStep(r, input).events;
    if events != r.events {
      assert events == r.events + [events[|events| - 1]] && Offers(r, input, events[|events| - 1]);
    }
  }

  // A sender waits under an id.
  predicate Waits(r: Remote, id: RequestId, sender: nat) {
    id in r.table.pending && r.table.pending[id] == sender
  }

  predicate Answers(input: RemoteInput, id: RequestId) {
    (input.ResponseMessage? || input.ErrorMessage?) && input.id == id
  }

  lemma WaitingMoves(r: Remote, input: RemoteInput, id: RequestId, sender: nat)
    ensures Waits(RemoteStep(r, input), id, sender) <==>
            || (Waits(r, id, sender) && (r.exited || !Answers(input, id)))
            || (!r.exited && input == Request(id, sender, true) && id !in r.table.pending)
  {
  }

  ghost predicate ExplainedAt(inputs: seq<RemoteInput>, reply: Reply, i: nat) {
    i < |inputs| && Explains(RemoteRun(inputs[..i]), inputs[i], reply)
  }

  ghost predicate OfferedAt(inputs: seq<RemoteInput>, event: AppEvent, i: nat) {
    i < |inputs| && Offers(RemoteRun(inputs[..i]), inputs[i], event)
  }

  /** Over every run: a reply was given exactly when some input received before the exit called for it: a result for a
      response to a pending id, an error for an error, a refusal for a duplicate id, a failure for a request that was
      not written, the outcome for a command. */
  lemma {:induction false} RepliesExplained(inputs: seq<RemoteInput>, reply: Reply)
    ensures reply in RemoteRun(inputs).table.replies <==> exists i: nat :: ExplainedAt(inputs, reply, i)
    decreases |inputs|
  {
    if inputs != [] {
      var n := |inputs| - 1;
      var init := inputs[..n];
      RepliesExplained(init, reply);
      RepliesGrow(RemoteRun(init), inputs[n]);
      assert forall i: nat :: i < n ==> init[..i] == inputs[..i];
      if reply in RemoteRun(init).table.replies {
        var i: nat :| ExplainedAt(init, reply, i);
        assert ExplainedAt(inputs, reply, i);
      }
      if i: nat :| ExplainedAt(inputs, reply, i) {
        if i < n { assert ExplainedAt(init, reply, i); }
      }
      if Explains(RemoteRun(init), inputs[n], reply) { assert ExplainedAt(inputs, reply, n); }
    }
  }

  /** Over every run: an event was offered exactly when some input received before the exit called for it. */
  lemma {:induction false} EventsExplained(inputs: seq<RemoteInput>, event: AppEvent)
    ensures event in RemoteRun(inputs).events <==> exists i: nat :: OfferedAt(inputs, event, i)
    decreases |inputs|
  {
    if inputs != [] {
      var n := |inputs| - 1;
      var init := inputs[..n];
      EventsExplained(init, event);
      EventsGrow(RemoteRun(init), inputs[n]);
      assert forall i: nat :: i < n ==> init[..i] == inputs[..i];
      if event in RemoteRun(init).events {
        var i: nat :| OfferedAt(init, event, i);
        assert OfferedAt(inputs, event, i);
      }
      if i: nat :| OfferedAt(inputs, event, i) {
        if i < n { assert OfferedAt(init, event, i); }
      }
      if Offers(RemoteRun(init), inputs[n], event) { assert OfferedAt(inputs, event, n); }
    }
  }

  lemma {:induction false} RemoteExitSticks(inputs: seq<RemoteInput>, n: nat)
    requires n <= |inputs| && RemoteRun(inputs[..n]).exited
    ensures RemoteRun(inputs) == RemoteRun(inputs[..n])
    decreases |inputs|
  {
    if n == |inputs| {
      assert inputs[..n] == inputs;
    } else {
      assert inputs[..|inputs| - 1][..n] == inputs[..n];
      RemoteExitSticks(inputs[..|inputs| - 1], n);
    }
  }

  // What the worker tells the senders still pending: why the connection was lost, or that the worker is gone.
  function ExitReason(events: seq<AppEvent>): Reason {
    if events != [] && events[|events| - 1].Disconnected? then Lost(events[|events| - 1].cause) else WorkerGone
  }

  /** The worker of `connect_with_stream`: its loop, then the exit drain, after which nothing is pending. */
  method RemoteWorker(inputs: seq<RemoteInput>) returns (replies: seq<Reply>, events: seq<AppEvent>)
    requires OwnSenders(inputs)
    ensures events == RemoteRun(inputs).events
    ensures var told := RemoteRun(inputs).table.replies;
            told <= replies && AllTold(replies, |told|, ExitReason(events))
    ensures Partitioned(Table(map[], replies), RemoteRun(inputs).asked) && Truthful(replies, RemoteRun(inputs).asked)
  {
    var pending: map<RequestId, nat> := map[];
    replies, events := [], [];
    ghost var asked: Asked := map[];
    var exitReason := WorkerGone;
    var n := 0;
    var exited := false;
    while n < |inputs| && !exited
      invariant 0 <= n <= |inputs|
      invariant RemoteRun(inputs[..n]) == Remote(Table(pending, replies), asked, events, exited)
      invariant exitReason == ExitReason(events)
      invariant !exited ==> exitReason == WorkerGone
    {
      var input := inputs[n];
      assert inputs[..n + 1][..n] == inputs[..n];
      n := n + 1;
      match input {
        case Request(id, sender, written) =>
          asked := asked[sender := Some(id)];
          if id in pending {
            replies := replies + [Reply(sender, Local(DuplicateId))];
            continue;
          }
          pending := pending[id := sender];
          if !written {
            replies := replies + [Reply(pending[id], Local(WriteFailed))];
            pending := pending - {id};
            events := events + [Disconnected(input)];
            exitReason := Lost(input);
            exited := true;
          }
        case Command(sender, ok) =>
          asked := asked[sender := None];
          replies := replies + [Reply(sender, Local(CommandDone(ok)))];
        case Shutdown(sender, ok) =>
          asked := asked[sender := None];
          replies := replies + [Reply(sender, Local(CommandDone(ok)))];
          exited := true;
        case CommandsClosed => exited := true;
        case ResponseMessage(id, payload) =>
          if id in pending {
            replies := replies + [Reply(pending[id], Result(id, payload))];
            pending := pending - {id};
          }
        case ErrorMessage(id, payload) =>
          if id in pending {
            replies := replies + [Reply(pending[id], RpcError(id, payload))];
            pending := pending - {id};
          }
        case NotificationMessage(body, known, delivered) =>
          if known {
            if delivered { events := events + [NotificationEvent(body)]; } else { exited := true; }
          }
        case RequestMessage(body, known, delivered) =>
          if known {
            if delivered { events := events + [RequestEvent(body)]; } else { exited := true; }
          } else if !delivered {
            events := events + [Disconnected(input)];
            exitReason := Lost(input);
            exited := true;
          }
        case IgnoredFrame =>
        case _ =>
          events := events + [Disconnected(input)];
          exitReason := Lost(input);
          exited := true;
      }
    }
    if exited { RemoteExitSticks(inputs, n); } else { assert inputs[..n] == inputs; }
    RemoteRunKeeps(inputs);
    replies := DrainPending(Table(pending, replies), exitReason, asked);
  }

  // ---------- the in-process runtime ----------

  datatype Enqueued = Taken | Full | Closed

  datatype LocalInput =
    | ClientRequest(id: RequestId, sender: nat, queued: Enqueued)
    | ClientNotification(queued: Enqueued)
    | ServerRequestAnswered                          // a client's answer to a server request, passed on
    | ShutdownMessage
    | ClientClosed
    | WriterResponse(id: RequestId, payload: string)
    | WriterError(id: RequestId, payload: string)
    | WriterRequest                                  // forwarded or refused at once, table untouched
    | WriterNotification(consumerGone: bool)
    | WriterClosed

  datatype Runtime = Runtime(table: Table, asked: Asked, exited: bool)

  const RUNTIME_START: Runtime := Runtime(Table(map[], []), map[], false)

  function RuntimeStep(r: Runtime, input: LocalInput): Runtime {
    if r.exited then r
    else match input
      case ClientRequest(id, sender, queued) =>
        var known := r.(asked := r.asked[sender := Some(id)], table := Register(r.table, id, sender));
        if id in r.table.pending || queued.Taken? then known
        else if queued.Full? then known.(table := Settle(known.table, id, Local(QueueFull)))
        else known.(table := Settle(known.table, id, Local(ProcessorClosed)), exited := true)
      case ClientNotification(queued) => r.(exited := queued.Closed?)
      case WriterResponse(id, payload) => r.(table := Settle(r.table, id, Result(id, payload)))
      case WriterError(id, payload) => r.(table := Settle(r.table, id, RpcError(id, payload)))
      case WriterNotification(consumerGone) => r.(exited := consumerGone)
      case ServerRequestAnswered => r
      case WriterRequest => r
      case _ => r.(exited := true)
  }

  function RuntimeRun(inputs: seq<LocalInput>): Runtime {
    if inputs == [] then RUNTIME_START else RuntimeStep(RuntimeRun(inputs[..|inputs| - 1]), inputs[|inputs| - 1])
  }

  predicate OwnLocalSenders(inputs: seq<LocalInput>) {
    inputs == [] ||
    var before, last := inputs[..|inputs| - 1], inputs[|inputs| - 1];
    OwnLocalSenders(before) && (last.ClientRequest? ==> last.sender !in RuntimeRun(before).asked)
  }

  /** The same for every run of the in-process runtime. */
  lemma {:induction false} RuntimeRunKeeps(inputs: seq<LocalInput>)
    requires OwnLocalSenders(inputs)
    ensures var r := RuntimeRun(inputs); Partitioned(r.table, r.asked) && Truthful(r.table.replies, r.asked)
    decreases |inputs|
  {
    if inputs != [] {
      var r, input := RuntimeRun(inputs[..|inputs| - 1]), inputs[|inputs| - 1];
      RuntimeRunKeeps(inputs[..|inputs| - 1]);
      match input
      case ClientRequest(id, sender, queued) =>
        RegisterPartitions(r.table, r.asked, id, sender);
        var known := Register(r.table, id, sender);
        if id !in r.table.pending && !queued.Taken? {
          var reason := if queued.Full? then QueueFull else ProcessorClosed;
          SettlePartitions(known, r.asked[sender := Some(id)], id, Local(reason));
        }
      case WriterResponse(id, payload) => SettlePartitions(r.table, r.asked, id, Result(id, payload));
      case WriterError(id, payload) => SettlePartitions(r.table, r.asked, id, RpcError(id, payload));
      case _ =>
    }
  }

  // The runtime in state `r` answers the input with this reply.
  predicate ExplainsLocal(r: Runtime, input: LocalInput, reply: Reply) {
    !r.exited &&
    match reply.answer
    case Result(id, payload) =>
      input == WriterResponse(id, payload) && id in r.table.pending && r.table.pending[id] == reply.sender
    case RpcError(id, payload) =>
      input == WriterError(id, payload) && id in r.table.pending && r.table.pending[id] == reply.sender
    case Local(reason) =>
      input.ClientRequest? && input.sender == reply.sender &&
      match reason
      case DuplicateId => input.id in r.table.pending
      case QueueFull => input.queued.Full? && input.id !in r.table.pending
      case ProcessorClosed => input.queued.Closed? && input.id !in r.table.pending
      case _ => false
  }

  lemma LocalRepliesGrow(r: Runtime, input: LocalInput)
    ensures var told := RuntimeStep(r, input).table.replies;
            && (told == r.table.replies ||
                exists reply :: told == r.table.replies + [reply] && ExplainsLocal(r, input, reply))
            && forall reply :: ExplainsLocal(r, input, reply) ==> told == r.table.replies + [reply]
  {
    var told := RuntimeStep(r, input).table.replies;
    if told != r.table.replies {
      assert told == r.table.replies + [told[|told| - 1]] && ExplainsLocal(r, input, told[|told| - 1]);
    }
  }

  // The runtime leaves its loop on a shutdown, on a closed queue or sender, and when the consumer is gone.
  lemma LocalStepMoves(r: Runtime, input: LocalInput, id: RequestId, sender: nat)
    requires !r.exited
    ensures RuntimeStep(r, input).exited <==>
            || input.ShutdownMessage? || input.ClientClosed? || input.WriterClosed?
            || (input.ClientRequest? && input.queued.Closed? && input.id !in r.table.pending)
            || (input.ClientNotification? && input.queued.Closed?)
            || (input.WriterNotification? && input.consumerGone)
    ensures var after := RuntimeStep(r, input).table.pending;
            id in after && after[id] == sender <==>
            || (id in r.table.pending && r.table.pending[id] == sender &&
                !((input.WriterResponse? || input.WriterError?) && input.id == id))
            || (input == ClientRequest(id, sender, Taken) && id !in r.table.pending)
  {
  }

  ghost predicate LocalExplainedAt(inputs: seq<LocalInput>, reply: Reply, i: nat) {
    i < |inputs| && ExplainsLocal(RuntimeRun(inputs[..i]), inputs[i], reply)
  }

  /** The same for every run of the in-process runtime. */
  lemma {:induction false} LocalRepliesExplained(inputs: seq<LocalInput>, reply: Reply)
    ensures reply in RuntimeRun(inputs).table.replies <==> exists i: nat :: LocalExplainedAt(inputs, reply, i)
    decreases |inputs|
  {
    if inputs != [] {
      var n := |inputs| - 1;
      var init := inputs[..n];
      LocalRepliesExplained(init, reply);
      LocalRepliesGrow(RuntimeRun(init), inputs[n]);
      assert forall i: nat :: i < n ==> init[..i] == inputs[..i];
      if reply in RuntimeRun(init).table.replies {
        var i: nat :| LocalExplainedAt(init, reply, i);
        assert LocalExplainedAt(inputs, reply, i);
      }
      if i: nat :| LocalExplainedAt(inputs, reply, i) {
        if i < n { assert LocalExplainedAt(init, reply, i); }
      }
      if ExplainsLocal(RuntimeRun(init), inputs[n], reply) { assert LocalExplainedAt(inputs, reply, n); }
    }
  }

  lemma {:induction false} RuntimeExitSticks(inputs: seq<LocalInput>, n: nat)
    requires n <= |inputs| && RuntimeRun(inputs[..n]).exited
    ensures RuntimeRun(inputs) == RuntimeRun(inputs[..n])
    decreases |inputs|
  {
    if n == |inputs| {
      assert inputs[..n] == inputs;
    } else {
      assert inputs[..|inputs| - 1][..n] == inputs[..n];
      RuntimeExitSticks(inputs[..|inputs| - 1], n);
    }
  }

  /** The runtime loop and its exit drain. */
  method InProcessRuntime(inputs: seq<LocalInput>) returns (replies: seq<Reply>)
    requires OwnLocalSenders(inputs)
    ensures var told := RuntimeRun(inputs).table.replies;
            told <= replies && AllTold(replies, |told|, RuntimeStopping)
    ensures Partitioned(Table(map[], replies), RuntimeRun(inputs).asked) && Truthful(replies, RuntimeRun(inputs).asked)
  {
    var pending: map<RequestId, nat> := map[];
    replies := [];
    ghost var asked: Asked := map[];
    var n, exited := 0, false;
    while n < |inputs| && !exited
      invariant 0 <= n <= |inputs|
      invariant RuntimeRun(inputs[..n]) == Runtime(Table(pending, replies), asked, exited)
    {
      var input := inputs[n];
      assert inputs[..n + 1][..n] == inputs[..n];
      n := n + 1;
      match input {
        case ClientRequest(id, sender, queued) =>
          asked := asked[sender := Some(id)];
          if id in pending {
            replies := replies + [Reply(sender, Local(DuplicateId))];
            continue;
          }
          pending := pending[id := sender];
          match queued {
            case Taken =>
            case Full =>
              replies := replies + [Reply(pending[id], Local(QueueFull))];
              pending := pending - {id};
            case Closed =>
              replies := replies + [Reply(pending[id], Local(ProcessorClosed))];
              pending := pending - {id};
              exited := true;
          }
        case ClientNotification(queued) => if queued.Closed? { exited := true; }
        case WriterResponse(id, payload) =>
          if id in pending {
            replies := replies + [Reply(pending[id], Result(id, payload))];
            pending := pending - {id};
          }
        case WriterError(id, payload) =>
          if id in pending {
            replies := replies + [Reply(pending[id], RpcError(id, payload))];
            pending := pending - {id};
          }
        case WriterNotification(consumerGone) => if consumerGone { exited := true; }
        case ServerRequestAnswered =>
        case WriterRequest =>
        case _ => exited := true;
      }
    }
    if exited { RuntimeExitSticks(inputs, n); } else { assert inputs[..n] == inputs; }
    RuntimeRunKeeps(inputs);
    replies := DrainPending(Table(pending, replies), RuntimeStopping, asked);
  }
}
