/** Routing of outgoing envelopes to connections that are disconnected rather than left with a gap. */
module Router {
  import opened Prelude
  import opened Channels

  datatype Message = Notification(name: string, body: string) | OtherMessage(body: string)

  datatype Envelope = ToConnection(id: nat, message: Message) | Broadcast(message: Message)

  datatype Connection = Connection(
    initialized: bool, optedOut: set<string>, writer: Channel<Message>, canDisconnect: bool)

  type Connections = map<nat, Connection>

  // What happens to one connection from outside before the router's send to it: its receiver acts, and the client may
  // change its opt-outs.
  datatype Outside = Outside(receiver: Receiver, optedOut: set<string>)

  predicate Skips(optedOut: set<string>, message: Message) {
    message.Notification? && message.name in optedOut
  }

  // `send_message_to_connection`: the connection afterwards, or nothing if it was disconnected.
  function SentTo(conn: Connection, message: Message, outside: Outside): Option<Connection> {
    var now := conn.(optedOut := outside.optedOut);
    if Skips(outside.optedOut, message) then Some(now.(writer := Observe(conn.writer, outside.receiver)))
    else if conn.canDisconnect then
      var (writer, r) := TrySend(conn.writer, outside.receiver, message);
      if r.Accepted? then Some(now.(writer := writer)) else None
    else
      var (writer, ok) := AwaitSend(conn.writer, outside.receiver, message);
      if ok then Some(now.(writer := writer)) else None
  }

  // The connections an envelope is aimed at, judged when routing starts.
  predicate Aimed(id: nat, conn: Connection, envelope: Envelope) {
    match envelope
    case ToConnection(target, _) => id == target
    case Broadcast(message) => conn.initialized && !Skips(conn.optedOut, message)
  }

  function Routed(conns: Connections, envelope: Envelope, outside: nat -> Outside): Connections {
    map id |
      id in conns && (Aimed(id, conns[id], envelope) ==> SentTo(conns[id], envelope.message, outside(id)).Some?) ::
      if Aimed(id, conns[id], envelope) then SentTo(conns[id], envelope.message, outside(id)).value else conns[id]
  }

  class OutboundRouter {
    var connections: Connections
    var disconnected: set<nat>   // connections whose cancellation token was triggered

    constructor ()
      ensures connections == map[] && disconnected == {}
    {
      connections, disconnected := map[], {};
    }

    method Opened(id: nat, conn: Connection)
      modifies this`connections
      ensures connections == old(connections)[id := conn]
    {
      connections := connections[id := conn];
    }

    method Closed(id: nat)
      modifies this`connections
      ensures connections == old(connections) - {id}
    {
      connections := connections - {id};
    }

    method DisconnectAll()
      modifies this
      ensures connections == map[]
      ensures disconnected == old(disconnected) + set id | id in old(connections) && old(connections)[id].canDisconnect
    {
      disconnected := disconnected + set id | id in connections && connections[id].canDisconnect;
      connections := map[];
    }

    method DisconnectConnection(id: nat) returns (removed: bool)
      modifies this
      ensures removed <==> id in old(connections)
      ensures connections == old(connections) - {id}
      ensures disconnected == old(disconnected) +
        if id in old(connections) && old(connections)[id].canDisconnect then {id} else {}
    {
      if id !in connections { return false; }
      if connections[id].canDisconnect { disconnected := disconnected + {id}; }
      connections := connections - {id};
      return true;
    }

    method SendMessageToConnection(id: nat, message: Message, outside: Outside) returns (gone: bool)
      modifies this
      ensures id !in old(connections) ==> !gone && connections == old(connections) && disconnected == old(disconnected)
      ensures id in old(connections) ==>
        var after := SentTo(old(connections)[id], message, outside);
        && gone == after.None?
        && connections == (if after.Some? then old(connections)[id := after.value] else old(connections) - {id})
        && disconnected == old(disconnected) + if gone && old(connections)[id].canDisconnect then {id} else {}
    {
      if id !in connections { return false; }
      var conn := connections[id].(optedOut := outside.optedOut);
      if Skips(conn.optedOut, message) {
        connections := connections[id := conn.(writer := Observe(conn.writer, outside.receiver))];
        return false;
      }
      if conn.canDisconnect {
        var (writer, r) := TrySend(conn.writer, outside.receiver, message);
        match r {
          case Accepted =>
            connections := connections[id := conn.(writer := writer)];
            return false;
          case _ =>
            gone := DisconnectConnection(id);
        }
      } else {
        var (writer, ok) := AwaitSend(conn.writer, outside.receiver, message);
        if !ok {
          gone := DisconnectConnection(id);
        } else {
          connections := connections[id := conn.(writer := writer)];
          return false;
        }
      }
    }

    // `route_outgoing_envelope`.
    method RouteOutgoingEnvelope(envelope: Envelope, outside: nat -> Outside)
      modifies this
      ensures connections == Routed(old(connections), envelope, outside)
      ensures forall id :: id in disconnected <==>
        id in old(disconnected) || (id in old(connections) && old(connections)[id].canDisconnect && id !in connections)
    {
      match envelope {
        case ToConnection(id, message) =>
          var _ := SendMessageToConnection(id, message, outside(id));
          assert connections == Routed(old(connections), envelope, outside);
        case Broadcast(message) => SendToAll(message, outside);
      }
    }

    // The broadcast arm: targets are chosen first and visited in an arbitrary order.
    method SendToAll(message: Message, outside: nat -> Outside)
      modifies this
      ensures connections == Routed(old(connections), Broadcast(message), outside)
      ensures forall id :: id in disconnected <==>
        id in old(disconnected) || (id in old(connections) && old(connections)[id].canDisconnect && id !in connections)
    {
      ghost var before, told := connections, disconnected;
      var targets :=
        set id | id in connections && connections[id].initialized && !Skips(connections[id].optedOut, message);
      var todo := targets;
      while todo != {}
        invariant todo <= targets
        invariant forall id :: id in todo || id !in targets ==>
          (id in connections <==> id in before) && (id in before ==> connections[id] == before[id])
        invariant forall id :: id in targets - todo ==>
          var sent := SentTo(before[id], message, outside(id));
          (id in connections <==> sent.Some?) && (id in connections ==> connections[id] == sent.value)
        invariant forall id :: id in disconnected <==>
          id in told || (id in before && before[id].canDisconnect && id !in connections)
      {
        var id :| id in todo;
        var _ := SendMessageToConnection(id, message, outside(id));
        todo := todo - {id};
      }
      assert connections == Routed(before, Broadcast(message), outside);
    }
  }

  // ---------- whole runs ----------

  datatype Step =
    | Open(id: nat, conn: Connection)
    | Close(id: nat)
    | CloseAll
    | SetFlags(id: nat, initialized: bool, optedOut: set<string>)
    | Receive(id: nat, receiver: Receiver)
    | Route(envelope: Envelope, outside: nat -> Outside)

  predicate Enabled(conns: Connections, step: Step) {
    match step
    case Open(_, conn) => Wellformed(conn.writer) && conn.writer.sent == []
    case SetFlags(id, _, _) => id in conns
    case Receive(id, _) => id in conns
    case _ => true
  }

  function Apply(conns: Connections, step: Step): Connections
    requires Enabled(conns, step)
  {
    match step
    case Open(id, conn) => conns[id := conn]
    case Close(id) => conns - {id}
    case CloseAll => map[]
    case SetFlags(id, initialized, optedOut) =>
      conns[id := conns[id].(initialized := initialized, optedOut := optedOut)]
    case Receive(id, receiver) => conns[id := conns[id].(writer := Observe(conns[id].writer, receiver))]
    case Route(envelope, outside) => Routed(conns, envelope, outside)
  }

  predicate LegalRun(steps: seq<Step>)
    decreases |steps|, 0
  {
    steps == [] ||
    (LegalRun(steps[..|steps| - 1]) && Enabled(After(steps[..|steps| - 1]), steps[|steps| - 1]))
  }

  function After(steps: seq<Step>): Connections
    requires LegalRun(steps)
    decreases |steps|, 1
  {
    if steps == [] then map[] else Apply(After(steps[..|steps| - 1]), steps[|steps| - 1])
  }

  // The client has opted out of the message.
  predicate Refuses(optedOut: set<string>, message: Message) {
    message.Notification? && message.name in optedOut
  }

  // The envelope was meant for the connection: targeted at it, or broadcast while it was initialized, and not opted out
  // of, for a broadcast neither when routing starts nor by the time it is sent.
  predicate Selected(id: nat, conn: Connection, envelope: Envelope, outside: Outside) {
    match envelope
    case ToConnection(target, message) => id == target && !Refuses(outside.optedOut, message)
    case Broadcast(message) =>
      conn.initialized && !Refuses(conn.optedOut, message) && !Refuses(outside.optedOut, message)
  }

  // Everything selected for a connection since it was last opened.
  function SelectedSinceOpen(steps: seq<Step>, id: nat): seq<Message>
    requires LegalRun(steps)
  {
    if steps == [] then []
    else
      var before, last := steps[..|steps| - 1], steps[|steps| - 1];
      match last
      case Open(which, _) => if which == id then [] else SelectedSinceOpen(before, id)
      case Route(envelope, outside) =>
        SelectedSinceOpen(before, id) +
        (if id in After(before) && Selected(id, After(before)[id], envelope, outside(id)) then [envelope.message]
         else [])
      case _ => SelectedSinceOpen(before, id)
  }

  // A surviving send hands over exactly the selected message.
  lemma SentToHandsOver(id: nat, conn: Connection, envelope: Envelope, outside: Outside)
    requires Wellformed(conn.writer) && Aimed(id, conn, envelope)
    ensures var after := SentTo(conn, envelope.message, outside);
            after.Some? ==>
              && Wellformed(after.value.writer)
              && after.value.writer.sent ==
                 conn.writer.sent + (if Selected(id, conn, envelope, outside) then [envelope.message] else [])
  {
    SendsKeepWellformed(conn.writer, outside.receiver, envelope.message);
  }

  /** No gaps while connected: in every run, a connection still routed to has been handed, in order, exactly the
      messages selected for it since it opened. */
  lemma {:induction false} NoGapsWhileConnected(steps: seq<Step>, id: nat)
    requires LegalRun(steps) && id in After(steps)
    ensures Wellformed(After(steps)[id].writer)
    ensures After(steps)[id].writer.sent == SelectedSinceOpen(steps, id)
    decreases |steps|
  {
    if steps != [] {
      var before, last := steps[..|steps| - 1], steps[|steps| - 1];
      if !(last.Open? && last.id == id) {
        NoGapsWhileConnected(before, id);
        if last.Route? && Aimed(id, After(before)[id], last.envelope) {
          SentToHandsOver(id, After(before)[id], last.envelope, last.outside(id));
        }
      }
    }
  }

  /** A route step removes a connection only if the message was selected for it and its queue was closed, or was
      full and the connection can be disconnected; every connection it was not aimed at is untouched. */
  lemma RouteRemovesOnlyBlocked(conns: Connections, envelope: Envelope, outside: nat -> Outside, id: nat)
    requires id in conns && Wellformed(conns[id].writer)
    ensures var after := Routed(conns, envelope, outside);
            var queue := Observe(conns[id].writer, outside(id).receiver);
            && (id !in after <==>
                  && Selected(id, conns[id], envelope, outside(id))
                  && (queue.closed || (conns[id].canDisconnect && |queue.sent| == queue.taken + queue.capacity)))
            && (!Aimed(id, conns[id], envelope) ==> after[id] == conns[id])
  {}

  // Whether the connection's queue is closed, or has room, once its receiver has acted.
  predicate ClosedThen(conn: Connection, rx: Receiver) { conn.writer.closed || rx.closes }

  predicate RoomThen(conn: Connection, rx: Receiver) {
    var sent, taken := |conn.writer.sent|, conn.writer.taken + rx.takes;
    sent < (if taken <= sent then taken else sent) + conn.writer.capacity
  }

  // What a selected message does to its connection.
  ghost predicate Handled(conn: Connection, after: Connections, id: nat, message: Message, rx: Receiver) {
    if ClosedThen(conn, rx) || (!RoomThen(conn, rx) && conn.canDisconnect) then id !in after
    else
      && id in after && after[id].writer.sent == conn.writer.sent + [message]
      && after[id].initialized == conn.initialized && after[id].canDisconnect == conn.canDisconnect
  }

  /** A broadcast leaves alone every connection that is not initialized or has opted out, hands nothing to one that opts
      out before the send, and hands the message to every other one, or drops it if its queue is closed, or full and it
      can be disconnected. */
  lemma BroadcastReaches(conns: Connections, message: Message, outside: nat -> Outside, id: nat)
    requires id in conns && Wellformed(conns[id].writer)
    ensures var after := Routed(conns, Broadcast(message), outside);
            var conn := conns[id];
            if !conn.initialized || (message.Notification? && message.name in conn.optedOut) then
              id in after && after[id] == conn
            else if message.Notification? && message.name in outside(id).optedOut then
              id in after && after[id].writer.sent == conn.writer.sent
            else Handled(conn, after, id, message, outside(id).receiver)
  {
  }

  /** A targeted message touches no other connection, and reaches its target even before that is initialized, on the
      same terms. */
  lemma TargetedReaches(conns: Connections, target: nat, message: Message, outside: nat -> Outside, id: nat)
    requires id in conns && Wellformed(conns[id].writer)
    ensures var after := Routed(conns, ToConnection(target, message), outside);
            var conn := conns[id];
            if id != target then id in after && after[id] == conn
            else if message.Notification? && message.name in outside(id).optedOut then
              id in after && after[id].writer.sent == conn.writer.sent
            else Handled(conn, after, id, message, outside(id).receiver)
  {
  }

  // Routing opens no connection.
  lemma RouteOpensNothing(conns: Connections, envelope: Envelope, outside: nat -> Outside)
    ensures Routed(conns, envelope, outside).Keys <= conns.Keys
  {
  }

  /** The outbound loop: any run of control events, routed envelopes and outside changes leaves the router's map as the
      steps say, so what is proved of runs holds of the class. */
  method RunRouter(steps: seq<Step>) returns (router: OutboundRouter)
    requires LegalRun(steps)
    ensures fresh(router) && router.connections == After(steps)
  {
    router := new OutboundRouter();
    for n := 0 to |steps|
      invariant fresh(router) && LegalRun(steps[..n]) && router.connections == After(steps[..n])
    {
      LegalPrefix(steps, n + 1);
      assert steps[..n + 1][..n] == steps[..n];
      match steps[n] {
        case Open(id, conn) => router.Opened(id, conn);
        case Close(id) => router.Closed(id);
        case CloseAll => router.DisconnectAll();
        case SetFlags(id, initialized, optedOut) =>
          router.connections := router.connections[id :=
            router.connections[id].(initialized := initialized, optedOut := optedOut)];
        case Receive(id, receiver) =>
          router.connections := router.connections[id :=
            router.connections[id].(writer := Observe(router.connections[id].writer, receiver))];
        case Route(envelope, outside) => router.RouteOutgoingEnvelope(envelope, outside);
      }
    }
    assert steps[..|steps|] == steps;
  }

  lemma {:induction false} LegalPrefix(steps: seq<Step>, n: nat)
    requires LegalRun(steps) && n <= |steps|
    ensures LegalRun(steps[..n])
    decreases |steps|
  {
    if n == |steps| {
      assert steps[..n] == steps;
    } else {
      LegalPrefix(steps[..|steps| - 1], n);
      assert steps[..|steps| - 1][..n] == steps[..n];
    }
  }
}
