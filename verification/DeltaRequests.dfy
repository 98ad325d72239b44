/** Incremental websocket requests: the session that remembers the last exchange, and the server it must agree with. */
module DeltaRequests {
  import opened Prelude

  type Item = string

  // Every request field but the input, as compared by `get_incremental_items`.
  datatype Properties = Properties(
    model: string, instructions: string, tools: seq<string>, toolChoice: string, parallelToolCalls: bool,
    reasoning: Option<string>, store: bool, stream: bool, included: seq<string>, serviceTier: Option<string>,
    promptCacheKey: Option<string>, text: Option<string>, clientMetadata: Option<map<string, string>>)

  datatype ApiRequest = ApiRequest(properties: Properties, input: seq<Item>)

  datatype WsCreate = WsCreate(
    properties: Properties, previousResponseId: Option<string>, input: seq<Item>, generate: Option<bool>)

  datatype LastResponse = LastResponse(responseId: string, itemsAdded: seq<Item>)

  // ---------- the response stream ----------

  datatype Event = OutputItemDone(item: Item) | Completed(responseId: string) | OtherEvent | StreamError

  function Items(events: seq<Event>): seq<Item> {
    if events == [] then []
    else
      var last := events[|events| - 1];
      Items(events[..|events| - 1]) + (if last.OutputItemDone? then [last.item] else [])
  }

  // What the mapper hands over: the first completion with the items before it.
  function FirstResponse(events: seq<Event>): Option<LastResponse> {
    if events == [] then None
    else
      var init, last := events[..|events| - 1], events[|events| - 1];
      if FirstResponse(init).Some? then FirstResponse(init)
      else if last.Completed? then Some(LastResponse(last.responseId, Items(init)))
      else None
  }

  lemma OneMoreEvent(events: seq<Event>, n: nat)
    requires n < |events|
    ensures Items(events[..n + 1]) == Items(events[..n]) + (if events[n].OutputItemDone? then [events[n].item] else [])
    ensures FirstResponse(events[..n + 1]) ==
            if FirstResponse(events[..n]).None? && events[n].Completed?
            then Some(LastResponse(events[n].responseId, Items(events[..n]))) else FirstResponse(events[..n])
  {
    assert events[..n + 1][..n] == events[..n];
  }

  // The loop of `map_response_events`, over the events it gets to see before its consumer goes away.
  method MapResponseEvents(events: seq<Event>) returns (handedOver: Option<LastResponse>, forwarded: seq<Event>)
    ensures handedOver == FirstResponse(events)
    ensures forwarded == events
  {
    var itemsAdded: seq<Item> := [];
    handedOver, forwarded := None, [];
    for n := 0 to |events|
      invariant handedOver == FirstResponse(events[..n])
      invariant handedOver.None? ==> itemsAdded == Items(events[..n])
      invariant forwarded == events[..n]
    {
      OneMoreEvent(events, n);
      match events[n] {
        case OutputItemDone(item) => itemsAdded := itemsAdded + [item];
        case Completed(responseId) =>
          if handedOver.None? {
            handedOver := Some(LastResponse(responseId, itemsAdded));
            itemsAdded := [];
          }
        case _ =>
      }
      forwarded := forwarded + [events[n]];
    }
    assert events[..|events|] == events;
  }

  predicate IsOutput(event: Event) { event.OutputItemDone? }

  // The items are exactly those of the output events, in their order.
  lemma {:induction false} ItemsAreOutputs(events: seq<Event>)
    ensures var outputs := Filter(events, IsOutput);
            |Items(events)| == |outputs| &&
            forall i :: 0 <= i < |outputs| ==> outputs[i] == OutputItemDone(Items(events)[i])
  {
    if events != [] {
      var init, last := events[..|events| - 1], events[|events| - 1];
      ItemsAreOutputs(init);
      assert events == init + [last];
      FilterConcat(init, [last], IsOutput);
      assert Filter([last], IsOutput) == if IsOutput(last) then [last] else [];
    }
  }

  ghost predicate FirstCompletion(events: seq<Event>, c: nat) {
    c < |events| && events[c].Completed? && forall i :: 0 <= i < c ==> !events[i].Completed?
  }

  /** A response is handed over exactly when there is a completion, namely the id of the first one with the items of the
      output events before it. */
  lemma {:induction false} FirstResponseExactly(events: seq<Event>, c: nat)
    ensures FirstResponse(events).None? <==> forall i :: 0 <= i < |events| ==> !events[i].Completed?
    ensures FirstCompletion(events, c) ==>
              FirstResponse(events) == Some(LastResponse(events[c].responseId, Items(events[..c])))
  {
    if events != [] {
      var n := |events| - 1;
      FirstResponseExactly(events[..n], c);
      if c < n { assert events[..n][..c] == events[..c]; }
    }
  }

  lemma {:induction false} FirstResponseIsCompletion(events: seq<Event>) returns (i: nat)
    requires FirstResponse(events).Some?
    ensures i < |events| && events[i] == Completed(FirstResponse(events).value.responseId)
    ensures FirstResponse(events).value.itemsAdded == Items(events[..i])
  {
    var n := |events| - 1;
    if FirstResponse(events[..n]).Some? {
      i := FirstResponseIsCompletion(events[..n]);
      assert events[..n][..i] == events[..i];
    } else {
      i := n;
    }
  }

  // ---------- the session ----------

  datatype Session = Session(
    connection: Option<nat>, lastRequest: Option<ApiRequest>, lastResponseRx: Option<nat>,
    fromUntracedWarmup: bool, connectionReused: bool)

  const NO_SESSION: Session := Session(None, None, None, false, false)

  datatype ConnectOutcome = Fresh(connection: nat) | TimedOut | Refused

  function Incremental(session: Session, request: ApiRequest, last: Option<LastResponse>, allowEmptyDelta: bool):
    Option<seq<Item>>
  {
    if session.lastRequest.None? || session.lastRequest.value.properties != request.properties then None
    else
      var baseline := session.lastRequest.value.input + (if last.Some? then last.value.itemsAdded else []);
      if baseline <= request.input && (allowEmptyDelta || |baseline| < |request.input|)
      then Some(request.input[|baseline|..]) else None
  }

  // The rest of a request's input after the remembered one and the items of its response.
  ghost predicate DeltaIs(
    session: Session, request: ApiRequest, last: Option<LastResponse>, allowEmptyDelta: bool, rest: seq<Item>)
  {
    && session.lastRequest.Some? && session.lastRequest.value.properties == request.properties
    && session.lastRequest.value.input + (if last.Some? then last.value.itemsAdded else []) + rest == request.input
    && (allowEmptyDelta || rest != [])
  }

  /** A delta is found exactly when all other fields agree and the request continues the remembered exchange, and it is
      what the request adds. */
  lemma IncrementalExactly(session: Session, request: ApiRequest, last: Option<LastResponse>, allowEmptyDelta: bool)
    ensures forall rest :: Incremental(session, request, last, allowEmptyDelta) == Some(rest) <==>
              DeltaIs(session, request, last, allowEmptyDelta, rest)
  {
    if session.lastRequest.Some? {
      var base := session.lastRequest.value.input + (if last.Some? then last.value.itemsAdded else []);
      if base <= request.input { assert base + request.input[|base|..] == request.input; }
      forall rest | base + rest == request.input ensures base <= request.input && request.input[|base|..] == rest {
        assert (base + rest)[..|base|] == base && (base + rest)[|base|..] == rest;
      }
    }
  }

  // `prepare_websocket_request`, given what `try_recv` yields.
  function Prepared(session: Session, received: Option<LastResponse>, payload: WsCreate, request: ApiRequest): WsCreate
  {
    if session.lastResponseRx.None? || received.None? then payload
    else match Incremental(session, request, received, true)
      case None => payload
      case Some(delta) =>
        if received.value.responseId == "" then payload
        else payload.(previousResponseId := Some(received.value.responseId), input := delta)
  }

  function Reconnected(session: Session, isClosed: bool, outcome: ConnectOutcome): Session {
    if session.connection.Some? && !isClosed then session.(connectionReused := true)
    else
      var cleared := session.(lastRequest := None, lastResponseRx := None, fromUntracedWarmup := false);
      match outcome
      case Fresh(c) => cleared.(connection := Some(c), connectionReused := false)
      case TimedOut => NO_SESSION
      case Refused => cleared
  }

  function Preconnected(session: Session, enabled: bool, outcome: ConnectOutcome): Session {
    if !enabled || session.connection.Some? || !outcome.Fresh? then session
    else session.(connection := Some(outcome.connection), connectionReused := false)
  }

  function Remembered(session: Session, request: ApiRequest, warmup: bool): Session {
    session.(lastRequest := Some(request), lastResponseRx := None, fromUntracedWarmup := warmup)
  }

  class ModelClientSession {
    var connection: Option<nat>
    var lastRequest: Option<ApiRequest>
    var lastResponseRx: Option<nat>
    var fromUntracedWarmup: bool
    var connectionReused: bool

    ghost function View(): Session
      reads this
    {
      Session(connection, lastRequest, lastResponseRx, fromUntracedWarmup, connectionReused)
    }

    // A session takes over the cached websocket state.
    constructor (cached: Session)
      ensures View() == cached
    {
      connection, lastRequest, lastResponseRx := cached.connection, cached.lastRequest, cached.lastResponseRx;
      fromUntracedWarmup, connectionReused := cached.fromUntracedWarmup, cached.connectionReused;
    }

    method ResetWebsocketSession()
      modifies this
      ensures View() == NO_SESSION
    {
      connection, lastRequest, lastResponseRx := None, None, None;
      fromUntracedWarmup := false;
      connectionReused := false;
    }

    method GetLastResponse(arrived: Option<LastResponse>) returns (last: Option<LastResponse>)
      modifies this`lastResponseRx
      ensures last == (if old(lastResponseRx).Some? then arrived else None) && lastResponseRx.None?
    {
      if lastResponseRx.None? { return None; }
      lastResponseRx := None;
      return arrived;
    }

    method GetIncrementalItems(request: ApiRequest, last: Option<LastResponse>, allowEmptyDelta: bool)
      returns (delta: Option<seq<Item>>)
      ensures delta == Incremental(View(), request, last, allowEmptyDelta)
      ensures forall rest :: delta == Some(rest) <==> DeltaIs(View(), request, last, allowEmptyDelta, rest)
    {
      IncrementalExactly(View(), request, last, allowEmptyDelta);
      if lastRequest.None? { return None; }
      if lastRequest.value.properties != request.properties { return None; }
      var baseline := lastRequest.value.input;
      if last.Some? { baseline := baseline + last.value.itemsAdded; }
      var baselineLen := |baseline|;
      if baseline <= request.input && (allowEmptyDelta || baselineLen < |request.input|) {
        return Some(request.input[baselineLen..]);
      }
      return None;
    }

    method PrepareWebsocketRequest(payload: WsCreate, request: ApiRequest, arrived: Option<LastResponse>)
      returns (ws: WsCreate)
      modifies this`lastResponseRx
      ensures ws == Prepared(old(View()), arrived, payload, request)
      ensures connection == old(connection) && lastRequest == old(lastRequest) && lastResponseRx.None?
      ensures fromUntracedWarmup == old(fromUntracedWarmup) && connectionReused == old(connectionReused)
    {
      var last := GetLastResponse(arrived);
      if last.None? { return payload; }
      var delta := GetIncrementalItems(request, last, true);
      if delta.None? { return payload; }
      if last.value.responseId == "" { return payload; }
      return payload.(previousResponseId := Some(last.value.responseId), input := delta.value);
    }

    method PreconnectWebsocket(enabled: bool, outcome: ConnectOutcome)
      modifies this
      ensures View() == Preconnected(old(View()), enabled, outcome)
      ensures lastRequest == old(lastRequest) && lastResponseRx == old(lastResponseRx)
      ensures fromUntracedWarmup == old(fromUntracedWarmup)
      ensures if enabled && old(connection).None? && outcome.Fresh?
              then connection == Some(outcome.connection) && !connectionReused
              else connection == old(connection) && connectionReused == old(connectionReused)
    {
      if !enabled || connection.Some? { return; }
      match outcome {
        case Fresh(c) =>
          connection := Some(c);
          connectionReused := false;
        case _ =>
      }
    }

    method WebsocketConnection(isClosed: bool, outcome: ConnectOutcome) returns (ok: bool)
      modifies this
      ensures View() == Reconnected(old(View()), isClosed, outcome)
      ensures ok <==> (old(connection).Some? && !isClosed) || outcome.Fresh?
      ensures old(connection).Some? && !isClosed ==>
        && connection == old(connection) && lastRequest == old(lastRequest) && lastResponseRx == old(lastResponseRx)
        && fromUntracedWarmup == old(fromUntracedWarmup) && connectionReused
      ensures old(connection).None? || isClosed ==>
        && lastRequest.None? && lastResponseRx.None? && !fromUntracedWarmup
        && connection == (match outcome case Fresh(c) => Some(c) case TimedOut => None case Refused => old(connection))
        && connectionReused == (outcome.Refused? && old(connectionReused))
    {
      var needsNew := connection.None? || isClosed;
      if needsNew {
        lastRequest := None;
        lastResponseRx := None;
        fromUntracedWarmup := false;
        match outcome {
          case Fresh(c) =>
            connection := Some(c);
            connectionReused := false;
          case TimedOut =>
            ResetWebsocketSession();
            return false;
          case Refused => return false;
        }
      } else {
        connectionReused := true;
      }
      return true;
    }

    // The state updates of `stream_responses_websocket` around a send on an established connection.
    method StreamOnConnection(payload: WsCreate, request: ApiRequest, warmup: bool,
                              arrived: Option<LastResponse>, sent: Option<nat>)
      returns (ws: WsCreate)
      modifies this
      ensures ws == Prepared(old(View()), arrived, payload, request)
      ensures View() == Remembered(old(View()), request, warmup).(lastResponseRx := sent)
      ensures connection == old(connection) && connectionReused == old(connectionReused)
      ensures lastRequest == Some(request) && lastResponseRx == sent && fromUntracedWarmup == warmup
    {
      ws := PrepareWebsocketRequest(payload, request, arrived);
      lastRequest := Some(request);
      fromUntracedWarmup := warmup;
      if sent.Some? { lastResponseRx := sent; }
    }
  }

  // ---------- the client and the server ----------

  // What the server keeps for a completed response: the conversation, and the properties that produced it.
  datatype Context = Context(items: seq<Item>, properties: Properties)

  // A response stream: where it runs, the full request behind it, what the server took as its input, the events
  // emitted and how many of them the mapper has processed.
  datatype Stream = Stream(connection: nat, request: ApiRequest, base: Option<seq<Item>>, events: seq<Event>, seen: nat)

  // A request prepared but not yet on the wire.
  datatype Outgoing = Outgoing(connection: nat, ws: WsCreate, request: ApiRequest)

  datatype Sent = Sent(outgoing: Outgoing, base: Option<seq<Item>>)

  type ServerState = map<(nat, string), Context>

  datatype World = World(
    sessions: map<nat, Session>, outbox: map<nat, Outgoing>, cached: Session, enabled: bool,
    connections: set<nat>, closed: set<nat>,
    streams: map<nat, Stream>, server: ServerState, log: seq<Sent>)

  const START: World := World(map[], map[], NO_SESSION, true, {}, {}, map[], map[], [])

  datatype Step =
    | NewSession(i: nat)
    | DropSession(i: nat)
    | ForgetCached
    | ForceHttpFallback
    | SwitchToFallback(i: nat)
    | Preconnect(i: nat, outcome: ConnectOutcome)
    | Connect(i: nat, outcome: ConnectOutcome)
    | Prepare(i: nat, request: ApiRequest, metadata: Option<map<string, string>>, warmup: bool)
    | SendSucceeds(i: nat, stream: nat)
    | SendFails(i: nat, delivered: bool, stream: nat)
    | AbandonSend(i: nat)
    | CloseConnection(c: nat)
    | Emit(stream: nat, event: Event)
    | Process(stream: nat)

  predicate Idle(w: World, i: nat) { i in w.sessions && i !in w.outbox }

  predicate FreshOutcome(w: World, outcome: ConnectOutcome) { outcome.Fresh? ==> outcome.connection !in w.connections }

  predicate Enabled(w: World, step: Step) {
    match step
    case NewSession(i) => i !in w.sessions
    case DropSession(i) => Idle(w, i)
    case ForgetCached => true
    case ForceHttpFallback => true
    case SwitchToFallback(i) => Idle(w, i)
    case Preconnect(i, o) => Idle(w, i) && FreshOutcome(w, o)
    case Connect(i, o) => Idle(w, i) && FreshOutcome(w, o)
    case Prepare(i, _, _, _) => Idle(w, i) && w.sessions[i].connection.Some?
    case SendSucceeds(i, st) => i in w.sessions && i in w.outbox && st !in w.streams
    case SendFails(i, _, st) => i in w.sessions && i in w.outbox && st !in w.streams
    case AbandonSend(i) => i in w.sessions && i in w.outbox
    case CloseConnection(c) => true
    case Emit(st, event) =>
      && st in w.streams
      && (event.Completed? && event.responseId != "" ==> (w.streams[st].connection, event.responseId) !in w.server)
    case Process(st) => st in w.streams && w.streams[st].seen < |w.streams[st].events|
  }

  // The conversation the server reads out of a message.
  function Understood(server: ServerState, connection: nat, ws: WsCreate): Option<seq<Item>> {
    match ws.previousResponseId
    case None => Some(ws.input)
    case Some(r) => if (connection, r) in server then Some(server[(connection, r)].items + ws.input) else None
  }

  function Received(w: World, session: Session): Option<LastResponse> {
    if session.lastResponseRx.None? || session.lastResponseRx.value !in w.streams then None
    else
      var st := w.streams[session.lastResponseRx.value];
      if st.seen <= |st.events| then FirstResponse(st.events[..st.seen]) else None
  }

  function Payload(request: ApiRequest, metadata: Option<map<string, string>>, warmup: bool): WsCreate {
    WsCreate(request.properties.(clientMetadata := metadata), None, request.input, if warmup then Some(false) else None)
  }

  // The message reaches the server, which starts a response stream for it.
  function Delivered(w: World, out: Outgoing, stream: nat): World {
    var base := Understood(w.server, out.connection, out.ws);
    w.(streams := w.streams[stream := Stream(out.connection, out.request, base, [], 0)],
       log := w.log + [Sent(out, base)])
  }

  function WithConnection(w: World, outcome: ConnectOutcome): World {
    if outcome.Fresh? then w.(connections := w.connections + {outcome.connection}) else w
  }

  function Apply(w: World, step: Step): World
    requires Enabled(w, step)
  {
    match step
    case NewSession(i) => w.(sessions := w.sessions[i := w.cached], cached := NO_SESSION)
    case DropSession(i) => w.(sessions := w.sessions - {i}, cached := w.sessions[i])
    case ForgetCached => w.(cached := NO_SESSION)
    case ForceHttpFallback => w.(cached := NO_SESSION, enabled := false)
    case SwitchToFallback(i) => w.(cached := NO_SESSION, enabled := false, sessions := w.sessions[i := NO_SESSION])
    case Preconnect(i, o) =>
      WithConnection(w, o).(sessions := w.sessions[i := Preconnected(w.sessions[i], w.enabled, o)])
    case Connect(i, o) =>
      var session := w.sessions[i];
      var isClosed := session.connection.Some? && session.connection.value in w.closed;
      WithConnection(w, o).(sessions := w.sessions[i := Reconnected(session, isClosed, o)])
    case Prepare(i, request, metadata, warmup) =>
      var session := w.sessions[i];
      var ws := Prepared(session, Received(w, session), Payload(request, metadata, warmup), request);
      w.(sessions := w.sessions[i := Remembered(session, request, warmup)],
         outbox := w.outbox[i := Outgoing(session.connection.value, ws, request)])
    case SendSucceeds(i, st) =>
      var sent := Delivered(w, w.outbox[i], st);
      sent.(sessions := w.sessions[i := w.sessions[i].(lastResponseRx := Some(st))], outbox := w.outbox - {i})
    case SendFails(i, delivered, st) =>
      (if delivered then Delivered(w, w.outbox[i], st) else w).(outbox := w.outbox - {i})
    case AbandonSend(i) => w.(outbox := w.outbox - {i})
    case CloseConnection(c) => w.(closed := w.closed + {c})
    case Emit(st, event) =>
      var stream := w.streams[st];
      var w' := w.(streams := w.streams[st := stream.(events := stream.events + [event])]);
      if event.Completed? && event.responseId != "" && stream.base.Some? then
        w'.(server := w.server[(stream.connection, event.responseId) :=
              Context(stream.base.value + Items(stream.events), stream.request.properties)])
      else w'
    case Process(st) => w.(streams := w.streams[st := w.streams[st].(seen := w.streams[st].seen + 1)])
  }

  predicate LegalRun(w: World, steps: seq<Step>)
    decreases |steps|
  {
    steps == [] || (Enabled(w, steps[0]) && LegalRun(Apply(w, steps[0]), steps[1..]))
  }

  function After(w: World, steps: seq<Step>): World
    requires LegalRun(w, steps)
    decreases |steps|
  {
    if steps == [] then w else After(Apply(w, steps[0]), steps[1..])
  }

  // ---------- agreement ----------

  // A remembered exchange ran on the current connection, and the receiver belongs to the remembered request.
  predicate SessionAgrees(w: World, session: Session) {
    && (session.connection.None? ==> session.lastRequest.None? && session.lastResponseRx.None?)
    && (session.lastResponseRx.Some? ==>
          && session.lastResponseRx.value in w.streams
          && session.connection == Some(w.streams[session.lastResponseRx.value].connection)
          && session.lastRequest == Some(w.streams[session.lastResponseRx.value].request))
  }

  // The server read the full input behind a stream, and keeps every completion of it under its id.
  predicate StreamAgrees(w: World, st: nat) {
    st in w.streams ==>
      var stream := w.streams[st];
      && stream.base == Some(stream.request.input)
      && stream.seen <= |stream.events|
      && forall i :: 0 <= i < |stream.events| ==> CompletionKept(w.server, stream, i)
  }

  predicate CompletionKept(server: ServerState, stream: Stream, i: nat)
    requires i < |stream.events|
  {
    stream.events[i].Completed? && stream.events[i].responseId != "" ==>
      && (stream.connection, stream.events[i].responseId) in server
      && server[(stream.connection, stream.events[i].responseId)] ==
         Context(stream.request.input + Items(stream.events[..i]), stream.request.properties)
  }

  /** A delta means its full request: what the server holds for the named response, followed by the delta, is the full
      input, and that response came from a request with the same properties. */
  predicate MeansFullRequest(server: ServerState, out: Outgoing) {
    match out.ws.previousResponseId
    case None => out.ws.input == out.request.input
    case Some(r) =>
      && (out.connection, r) in server
      && server[(out.connection, r)].items + out.ws.input == out.request.input
      && server[(out.connection, r)].properties == out.request.properties
  }

  predicate OutgoingAgrees(w: World, i: nat) {
    i in w.outbox ==>
      && i in w.sessions && w.sessions[i].connection == Some(w.outbox[i].connection)
      && w.sessions[i].lastRequest == Some(w.outbox[i].request) && w.sessions[i].lastResponseRx.None?
      && MeansFullRequest(w.server, w.outbox[i])
  }

  ghost predicate Inv(w: World) {
    && SessionAgrees(w, w.cached)
    && (forall i :: i in w.sessions ==> SessionAgrees(w, w.sessions[i]))
    && (forall i :: OutgoingAgrees(w, i))
    && (forall st :: StreamAgrees(w, st))
    && (forall m :: m in w.log ==> MeansFullRequest(w.server, m.outgoing) && m.base == Some(m.outgoing.request.input))
  }

  // The heart of the matter: a delta prepared from an agreeing session means its full request.
  lemma PreparedMeansFull(
    w: World, session: Session, request: ApiRequest, metadata: Option<map<string, string>>, warmup: bool)
    requires SessionAgrees(w, session) && session.connection.Some? && forall st :: StreamAgrees(w, st)
    ensures var ws := Prepared(session, Received(w, session), Payload(request, metadata, warmup), request);
            MeansFullRequest(w.server, Outgoing(session.connection.value, ws, request))
  {
    var received := Received(w, session);
    var ws := Prepared(session, received, Payload(request, metadata, warmup), request);
    if ws.previousResponseId.Some? {
      var st := session.lastResponseRx.value;
      assert StreamAgrees(w, st);
      var stream := w.streams[st];
      var seen := stream.events[..stream.seen];
      var i := FirstResponseIsCompletion(seen);
      assert seen[..i] == stream.events[..i] && stream.events[i] == seen[i];
      assert CompletionKept(w.server, stream, i);
      var baseline := stream.request.input + received.value.itemsAdded;
      assert baseline <= request.input;
      assert baseline + request.input[|baseline|..] == request.input;
    }
  }

  lemma UnderstoodIsFull(server: ServerState, out: Outgoing)
    requires MeansFullRequest(server, out)
    ensures Understood(server, out.connection, out.ws) == Some(out.request.input)
  {}

  lemma EmitKeepsOther(w: World, st: nat, event: Event, other: nat)
    requires Enabled(w, Emit(st, event)) && other != st && StreamAgrees(w, other)
    ensures StreamAgrees(Apply(w, Emit(st, event)), other)
  {
    var w' := Apply(w, Emit(st, event));
    if other in w.streams {
      var stream := w.streams[other];
      forall i | 0 <= i < |stream.events| ensures CompletionKept(w'.server, stream, i) {
        assert CompletionKept(w.server, stream, i);
      }
    }
  }

  lemma EmitKeepsOwn(w: World, st: nat, event: Event)
    requires Enabled(w, Emit(st, event)) && StreamAgrees(w, st)
    ensures StreamAgrees(Apply(w, Emit(st, event)), st)
  {
    var w' := Apply(w, Emit(st, event));
    var before, after := w.streams[st], w'.streams[st];
    forall i | 0 <= i < |after.events| ensures CompletionKept(w'.server, after, i) {
      if i < |before.events| {
        assert CompletionKept(w.server, before, i);
        assert after.events[..i] == before.events[..i];
      } else {
        assert after.events[..i] == before.events;
      }
    }
  }

  lemma StepKeepsStream(w: World, step: Step, st: nat)
    requires Inv(w) && Enabled(w, step)
    ensures StreamAgrees(Apply(w, step), st)
  {
    assert StreamAgrees(w, st);
    match step
    case Emit(other, event) =>
      if other == st { EmitKeepsOwn(w, st, event); } else { EmitKeepsOther(w, other, event, st); }
    case SendSucceeds(i, _) =>
      assert OutgoingAgrees(w, i);
      UnderstoodIsFull(w.server, w.outbox[i]);
    case SendFails(i, _, _) =>
      assert OutgoingAgrees(w, i);
      UnderstoodIsFull(w.server, w.outbox[i]);
    case Process(other) =>
      if other == st {
        var before, after := w.streams[st], Apply(w, step).streams[st];
        forall i | 0 <= i < |after.events| ensures CompletionKept(w.server, after, i) {
          assert CompletionKept(w.server, before, i);
        }
      }
    case _ =>
  }

  // Server contexts are never overwritten, so what a message meant it keeps meaning.
  lemma StepKeepsMeaning(w: World, step: Step, out: Outgoing)
    requires Enabled(w, step) && MeansFullRequest(w.server, out)
    ensures MeansFullRequest(Apply(w, step).server, out)
  {}

  // Streams keep their connection and request for ever.
  predicate StreamsPersist(w: World, w': World) {
    forall st :: st in w.streams ==>
      && st in w'.streams
      && w'.streams[st].connection == w.streams[st].connection
      && w'.streams[st].request == w.streams[st].request
  }

  lemma StepKeepsStreams(w: World, step: Step)
    requires Enabled(w, step)
    ensures StreamsPersist(w, Apply(w, step))
  {}

  lemma SessionFramed(w: World, w': World, session: Session)
    requires SessionAgrees(w, session) && StreamsPersist(w, w')
    ensures SessionAgrees(w', session)
  {}

  // The session a step leaves at `i` agrees with the streams there were, or with the one just started.
  lemma ChangedSessionAgrees(w: World, step: Step, i: nat)
    requires Enabled(w, step) && !step.SendSucceeds? && i in Apply(w, step).sessions
    requires SessionAgrees(w, w.cached) && (i in w.sessions ==> SessionAgrees(w, w.sessions[i]))
    ensures SessionAgrees(w, Apply(w, step).sessions[i])
  {
  }

  lemma StepKeepsSession(w: World, step: Step, i: nat)
    requires Inv(w) && Enabled(w, step) && i in Apply(w, step).sessions
    ensures SessionAgrees(Apply(w, step), Apply(w, step).sessions[i])
  {
    var w' := Apply(w, step);
    StepKeepsStreams(w, step);
    if step.SendSucceeds? && step.i == i {
      assert OutgoingAgrees(w, i);
    } else if step.SendSucceeds? {
      SessionFramed(w, w', w.sessions[i]);
    } else {
      ChangedSessionAgrees(w, step, i);
      SessionFramed(w, w', w'.sessions[i]);
    }
  }

  lemma StepKeepsCached(w: World, step: Step)
    requires Inv(w) && Enabled(w, step)
    ensures SessionAgrees(Apply(w, step), Apply(w, step).cached)
  {
    StepKeepsStreams(w, step);
    var cached := Apply(w, step).cached;
    assert SessionAgrees(w, cached);
    SessionFramed(w, Apply(w, step), cached);
  }

  lemma PrepareKeepsOutgoing(w: World, step: Step, i: nat)
    requires Inv(w) && Enabled(w, step) && step.Prepare?
    ensures OutgoingAgrees(Apply(w, step), i)
  {
    assert OutgoingAgrees(w, i);
    PreparedMeansFull(w, w.sessions[step.i], step.request, step.metadata, step.warmup);
  }

  // Only a session without a message under way changes, and a message under way keeps its meaning.
  lemma OthersKeepOutgoing(w: World, step: Step, i: nat)
    requires Enabled(w, step) && !step.Prepare? && OutgoingAgrees(w, i)
    requires i in w.outbox ==> MeansFullRequest(Apply(w, step).server, w.outbox[i])
    ensures OutgoingAgrees(Apply(w, step), i)
  {
  }

  lemma StepKeepsOutgoing(w: World, step: Step, i: nat)
    requires Inv(w) && Enabled(w, step)
    ensures OutgoingAgrees(Apply(w, step), i)
  {
    assert OutgoingAgrees(w, i);
    if step.Prepare? {
      PrepareKeepsOutgoing(w, step, i);
    } else {
      if i in w.outbox { StepKeepsMeaning(w, step, w.outbox[i]); }
      OthersKeepOutgoing(w, step, i);
    }
  }

  lemma StepKeepsLog(w: World, step: Step, m: Sent)
    requires Inv(w) && Enabled(w, step) && m in Apply(w, step).log
    ensures MeansFullRequest(Apply(w, step).server, m.outgoing) && m.base == Some(m.outgoing.request.input)
  {
    if m in w.log { StepKeepsMeaning(w, step, m.outgoing); }
    match step
    case SendSucceeds(i, _) =>
      assert OutgoingAgrees(w, i);
      UnderstoodIsFull(w.server, w.outbox[i]);
    case SendFails(i, _, _) =>
      assert OutgoingAgrees(w, i);
      UnderstoodIsFull(w.server, w.outbox[i]);
    case _ =>
  }

  lemma StepKeepsInv(w: World, step: Step)
    requires Inv(w) && Enabled(w, step)
    ensures Inv(Apply(w, step))
  {
    var w' := Apply(w, step);
    forall st ensures StreamAgrees(w', st) { StepKeepsStream(w, step, st); }
    forall i ensures OutgoingAgrees(w', i) { StepKeepsOutgoing(w, step, i); }
    forall i | i in w'.sessions ensures SessionAgrees(w', w'.sessions[i]) { StepKeepsSession(w, step, i); }
    StepKeepsCached(w, step);
    forall m | m in w'.log
      ensures MeansFullRequest(w'.server, m.outgoing) && m.base == Some(m.outgoing.request.input)
    {
      StepKeepsLog(w, step, m);
    }
  }

  lemma {:induction false} RunKeepsInv(w: World, steps: seq<Step>)
    requires Inv(w) && LegalRun(w, steps)
    ensures Inv(After(w, steps))
    decreases |steps|
  {
    if steps != [] {
      StepKeepsInv(w, steps[0]);
      RunKeepsInv(Apply(w, steps[0]), steps[1..]);
    }
  }

  /** Delta requests refine full requests: in every run, the server has read every message ever sent as the full request
      input, exactly as if the client had always sent the whole conversation. */
  lemma DeltasRefineFullRequests(steps: seq<Step>)
    requires LegalRun(START, steps)
    ensures forall m :: m in After(START, steps).log ==>
      && m.base == Some(m.outgoing.request.input)
      && MeansFullRequest(After(START, steps).server, m.outgoing)
  {
    RunKeepsInv(START, steps);
  }

  // ---------- which requests go out as deltas ----------

  // The stream that the session waits on has completed, as far as its mapper got, with response `r`, and the request
  // continues that exchange by `rest`.
  ghost predicate DeltaDue(w: World, session: Session, request: ApiRequest, r: string, rest: seq<Item>) {
    && session.lastResponseRx.Some? && session.lastResponseRx.value in w.streams
    && session.lastRequest.Some? && session.lastRequest.value.properties == request.properties && r != ""
    && var stream := w.streams[session.lastResponseRx.value];
       exists c: nat ::
         && FirstCompletion(stream.events, c) && c < stream.seen && stream.events[c] == Completed(r)
         && session.lastRequest.value.input + Items(stream.events[..c]) + rest == request.input
  }

  lemma ReceivedExactly(w: World, session: Session)
    requires session.lastResponseRx.Some? && StreamAgrees(w, session.lastResponseRx.value)
    ensures var st := session.lastResponseRx.value;
            && (st !in w.streams ==> Received(w, session).None?)
            && (st in w.streams ==>
                  && (Received(w, session).Some? <==>
                        exists c: nat :: FirstCompletion(w.streams[st].events, c) && c < w.streams[st].seen)
                  && forall c: nat :: FirstCompletion(w.streams[st].events, c) && c < w.streams[st].seen ==>
                       Received(w, session) ==
                       Some(LastResponse(w.streams[st].events[c].responseId, Items(w.streams[st].events[..c]))))
  {
    var st := session.lastResponseRx.value;
    if st in w.streams {
      var events, seen := w.streams[st].events, w.streams[st].events[..w.streams[st].seen];
      FirstResponseExactly(seen, 0);
      if Received(w, session).Some? {
        var c := FirstCompletionIn(seen);
        assert FirstCompletion(events, c);
      }
      forall c: nat | FirstCompletion(events, c) && c < w.streams[st].seen
        ensures Received(w, session) == Some(LastResponse(events[c].responseId, Items(events[..c])))
      {
        FirstResponseExactly(seen, c);
        assert FirstCompletion(seen, c) && seen[..c] == events[..c];
      }
    }
  }

  lemma {:induction false} FirstCompletionIn(events: seq<Event>) returns (c: nat)
    requires exists i :: 0 <= i < |events| && events[i].Completed?
    ensures FirstCompletion(events, c)
  {
    var n := |events| - 1;
    if exists i :: 0 <= i < n && events[i].Completed? {
      var i :| 0 <= i < n && events[i].Completed?;
      assert events[..n][i].Completed?;
      c := FirstCompletionIn(events[..n]);
    } else {
      c := n;
    }
  }

  // What `Prepare` puts on its way: everything the caller asked for, and a delta exactly when one is due.
  ghost predicate WellPrepared(w: World, session: Session, step: Step, out: Outgoing)
    requires step.Prepare? && session.connection.Some?
  {
    && out.connection == session.connection.value && out.request == step.request
    && out.ws.properties == step.request.properties.(clientMetadata := step.metadata)
    && out.ws.generate == (if step.warmup then Some(false) else None)
    && (forall r, rest :: out.ws.previousResponseId == Some(r) && out.ws.input == rest <==>
          DeltaDue(w, session, step.request, r, rest))
    && (out.ws.previousResponseId.None? ==> out.ws.input == step.request.input)
  }

  /** In every reachable state a request goes out as a delta exactly when its session waits on a stream whose first
      completion was mapped, with an id, and the request continues that exchange with equal properties; then it names
      that response and carries exactly what it adds. */
  lemma PrepareSendsDeltas(w: World, step: Step)
    requires Inv(w) && Enabled(w, step) && step.Prepare?
    ensures WellPrepared(w, w.sessions[step.i], step, Apply(w, step).outbox[step.i])
  {
    var session, request := w.sessions[step.i], step.request;
    var received := Received(w, session);
    var out := Apply(w, step).outbox[step.i];
    IncrementalExactly(session, request, received, true);
    if session.lastResponseRx.Some? {
      assert StreamAgrees(w, session.lastResponseRx.value);
      ReceivedExactly(w, session);
    }
    forall r, rest
      ensures out.ws.previousResponseId == Some(r) && out.ws.input == rest <==> DeltaDue(w, session, request, r, rest)
    {
      DeltaDueIsPrepared(w, session, step, r, rest);
    }
  }

  lemma DeltaDueIsPrepared(w: World, session: Session, step: Step, r: string, rest: seq<Item>)
    requires step.Prepare? && session.connection.Some? && forall st :: StreamAgrees(w, st)
    ensures var payload := Payload(step.request, step.metadata, step.warmup);
            var ws := Prepared(session, Received(w, session), payload, step.request);
            ws.previousResponseId == Some(r) && ws.input == rest <==> DeltaDue(w, session, step.request, r, rest)
  {
    var received, request := Received(w, session), step.request;
    IncrementalExactly(session, request, received, true);
    if session.lastResponseRx.Some? {
      var st := session.lastResponseRx.value;
      assert StreamAgrees(w, st);
      ReceivedExactly(w, session);
      if received.Some? {
        var stream := w.streams[st];
        var c: nat :| FirstCompletion(stream.events, c) && c < stream.seen;
        assert received == Some(LastResponse(stream.events[c].responseId, Items(stream.events[..c])));
        assert DeltaIs(session, request, received, true, rest) <==>
               Incremental(session, request, received, true) == Some(rest);
      }
    }
  }

  // A dropped session is what the next one starts from, and the one after that starts afresh.
  lemma SessionsHandOver(w: World, i: nat, j: nat, k: nat)
    requires Enabled(w, DropSession(i)) && j !in w.sessions && k !in w.sessions && j != k
    ensures Enabled(Apply(w, DropSession(i)), NewSession(j))
    ensures Enabled(Apply(Apply(w, DropSession(i)), NewSession(j)), NewSession(k))
    ensures var later := Apply(Apply(Apply(w, DropSession(i)), NewSession(j)), NewSession(k));
            && later.sessions[j] == w.sessions[i]
            && later.sessions[k] == Session(None, None, None, false, false) && later.cached == later.sessions[k]
  {
  }

  // After a switch to HTTP nothing is remembered, and no websocket is opened ahead of a request any more.
  lemma FallbackForgets(w: World, i: nat, outcome: ConnectOutcome)
    requires Enabled(w, SwitchToFallback(i)) && FreshOutcome(w, outcome)
    ensures Enabled(Apply(w, SwitchToFallback(i)), Preconnect(i, outcome))
    ensures var later := Apply(Apply(w, SwitchToFallback(i)), Preconnect(i, outcome));
            && later.sessions[i] == Session(None, None, None, false, false) && later.cached == later.sessions[i]
            && !later.enabled
  {
  }
}
