/** Keyed request queues drained by one task per key, and the connection gate every request body passes. */
module Scheduler {
  import opened Prelude

  datatype Key = Global(name: string) | Thread(threadId: string) | ThreadPath(path: string)

  datatype Access = Exclusive | SharedRead

  // `key` is absent for requests that run unserialised.
  datatype Request = Request(id: nat, key: Option<Key>, access: Access, gate: nat)

  type Queues = map<Key, seq<Request>>

  // ---------- the critical sections under the queue lock ----------

  function ReadRun(queue: seq<Request>): (n: nat)
    ensures n <= |queue|
  {
    if queue == [] || queue[0].access.Exclusive? then 0 else 1 + ReadRun(queue[1..])
  }

  // Length of the batch popped from a non-empty queue: one exclusive request or the run of reads at its head.
  function BatchLength(queue: seq<Request>): (n: nat)
    requires queue != []
    ensures 0 < n <= |queue|
  {
    if queue[0].access.Exclusive? then 1 else ReadRun(queue)
  }

  predicate IsBatch(batch: seq<Request>) {
    batch != [] && (|batch| == 1 || forall r :: r in batch ==> r.access.SharedRead?)
  }

  lemma {:induction false} ReadRunIsMaximal(queue: seq<Request>)
    ensures forall i :: 0 <= i < ReadRun(queue) ==> queue[i].access.SharedRead?
    ensures ReadRun(queue) < |queue| ==> queue[ReadRun(queue)].access.Exclusive?
  {
    if queue != [] && queue[0].access.SharedRead? { ReadRunIsMaximal(queue[1..]); }
  }

  /** A popped batch is one exclusive request or all the reads up to the next exclusive one. */
  lemma BatchIsMaximal(queue: seq<Request>)
    requires queue != []
    ensures var n := BatchLength(queue);
            && IsBatch(queue[..n])
            && (queue[0].access.Exclusive? ==> n == 1)
            && (queue[0].access.SharedRead? ==>
                  && (forall r :: r in queue[..n] ==> r.access.SharedRead?)
                  && (n < |queue| ==> queue[n].access.Exclusive?))
  {
    ReadRunIsMaximal(queue);
  }

  function Pushed(queues: Queues, key: Key, request: Request): Queues {
    queues[key := (if key in queues then queues[key] else []) + [request]]
  }

  datatype Popped = Missing | Removed | Batch(requests: seq<Request>)

  function Pop(queues: Queues, key: Key): (Queues, Popped) {
    if key !in queues then (queues, Missing)
    else if queues[key] == [] then (queues - {key}, Removed)
    else
      var n := BatchLength(queues[key]);
      (queues[key := queues[key][n..]], Batch(queues[key][..n]))
  }

  class RequestSerializationQueues {
    var inner: Queues

    constructor ()
      ensures inner == map[]
    {
      inner := map[];
    }

    // The locked part of `enqueue`; the caller spawns a drainer when told to.
    method Enqueue(key: Key, request: Request) returns (shouldSpawn: bool)
      modifies this
      ensures inner == Pushed(old(inner), key, request)
      ensures shouldSpawn <==> key !in old(inner)
    {
      if key in inner {
        inner := inner[key := inner[key] + [request]];
        shouldSpawn := false;
      } else {
        var queue: seq<Request> := [];
        queue := queue + [request];
        inner := inner[key := queue];
        shouldSpawn := true;
      }
    }

    // The locked part of one round of `drain`.
    method TakeBatch(key: Key) returns (popped: Popped)
      modifies this
      ensures (inner, popped) == Pop(old(inner), key)
    {
      if key !in inner { return Missing; }
      var queue := inner[key];
      if queue == [] {
        inner := inner - {key};
        return Removed;
      }
      ghost var all := queue;
      var requests := [queue[0]];
      queue := queue[1..];
      if requests[0].access.SharedRead? {
        while queue != [] && queue[0].access.SharedRead?
          invariant requests != [] && all == requests + queue
          invariant ReadRun(all) == |requests| + ReadRun(queue)
        {
          requests, queue := requests + [queue[0]], queue[1..];
        }
      }
      assert requests == all[..BatchLength(all)] && queue == all[BatchLength(all)..];
      inner := inner[key := queue];
      return Batch(requests);
    }
  }

  // ---------- the connection gate ----------

  datatype Gate = Gate(accepting: bool, tokens: set<nat>)

  function Admitted(g: Gate, id: nat): Gate { if g.accepting then g.(tokens := g.tokens + {id}) else g }

  function Released(g: Gate, id: nat): Gate { g.(tokens := g.tokens - {id}) }

  function Shut(g: Gate): Gate { g.(accepting := false) }

  // Closed, with no body in flight: a `shutdown` call may return.
  predicate IsDrained(g: Gate) { !g.accepting && g.tokens == {} }

  class ConnectionRpcGate {
    var accepting: bool
    var tokens: set<nat>

    ghost function View(): Gate reads this { Gate(accepting, tokens) }

    constructor ()
      ensures View() == Gate(true, {})
    {
      accepting, tokens := true, {};
    }

    // The locked prefix of `run`: a token is taken, or the request is skipped.
    method Enter(id: nat) returns (admitted: bool)
      modifies this
      ensures admitted == old(accepting) && accepting == old(accepting)
      ensures tokens == if admitted then old(tokens) + {id} else old(tokens)
      ensures View() == Admitted(old(View()), id)
    {
      if !accepting { return false; }
      tokens := tokens + {id};
      return true;
    }

    // Dropping the token after the body.
    method Leave(id: nat)
      modifies this`tokens
      ensures tokens == old(tokens) - {id} && View() == Released(old(View()), id)
    {
      tokens := tokens - {id};
    }

    method CloseForShutdown()
      modifies this`accepting
      ensures !accepting && View() == Shut(old(View()))
    {
      accepting := false;
    }

    // Whether `shutdown` may return: closed, and no token left.
    method Drained() returns (done: bool)
      ensures done <==> !accepting && tokens == {}
      ensures done <==> IsDrained(View())
    {
      return !accepting && tokens == {};
    }
  }

  // ---------- all interleavings ----------

  datatype Status = Queued | Waiting | InBody | Done

  datatype Entry = Entry(request: Request, status: Status)

  // A drainer task: about to be spawned, at the top of its loop, or awaiting a batch.
  datatype Phase = Spawning | Ready | Running(batch: seq<Request>)

  datatype Drainer = Drainer(key: Key, phase: Phase)

  // What has happened on one key: everything enqueued, the batches fully awaited, the batch being awaited.
  // For each batch, in order, `found` keeps the queue its drainer took it from.
  datatype History = History(
    enqueued: seq<Request>, settled: seq<seq<Request>>, active: seq<Request>, found: seq<seq<Request>>)

  datatype State = State(
    queues: Queues,
    drainers: map<nat, Drainer>,
    entries: map<nat, Entry>,
    gates: map<nat, Gate>,
    returned: set<nat>,            // gates on which some `shutdown` call has returned
    missingExit: bool,             // some drainer found its queue gone
    history: map<Key, History>,
    owner: map<Key, nat>)          // the drainer each insertion of a key led to
  {
    function Queue(k: Key): seq<Request> { if k in queues then queues[k] else [] }
    function Past(k: Key): History { if k in history then history[k] else History([], [], [], []) }
    function GateOf(g: nat): Gate { if g in gates then gates[g] else Gate(true, {}) }
    predicate Is(id: nat, status: Status) { id in entries && entries[id].status == status }
    predicate Live(id: nat) { Is(id, Waiting) || Is(id, InBody) }
  }

  const INITIAL: State := State(map[], map[], map[], map[], {}, false, map[], map[])

  datatype Step =
    | Enqueue(request: Request, task: nat)
    | Spawn(task: nat)
    | PopStep(task: nat)
    | Join(task: nat)
    | RunDirect(request: Request)
    | CheckGate(id: nat)
    | FinishBody(id: nat)
    | BeginShutdown(gate: nat)
    | EndShutdown(gate: nat)

  predicate Enabled(s: State, step: Step) {
    match step
    case Enqueue(r, task) => r.key.Some? && r.id !in s.entries && (r.key.value !in s.queues ==> task !in s.drainers)
    case Spawn(task) => task in s.drainers && s.drainers[task].phase.Spawning?
    case PopStep(task) => task in s.drainers && s.drainers[task].phase.Ready?
    case Join(task) =>
      && task in s.drainers && s.drainers[task].phase.Running?
      && forall r :: r in s.drainers[task].phase.batch ==> s.Is(r.id, Done)
    case RunDirect(r) => r.key.None? && r.id !in s.entries
    case CheckGate(id) => s.Is(id, Waiting)
    case FinishBody(id) => s.Is(id, InBody)
    case BeginShutdown(_) => true
    case EndShutdown(g) => IsDrained(s.GateOf(g))
  }

  function WithStatus(s: State, id: nat, status: Status): State
    requires id in s.entries
  {
    s.(entries := s.entries[id := s.entries[id].(status := status)])
  }

  function Dispatched(entries: map<nat, Entry>, batch: seq<Request>): map<nat, Entry> {
    map id | id in entries ::
      if entries[id].request in batch then entries[id].(status := Waiting) else entries[id]
  }

  function Apply(s: State, step: Step): State
    requires Enabled(s, step)
  {
    match step
    case Enqueue(r, task) =>
      var k, past := r.key.value, s.Past(r.key.value);
      s.(queues := Pushed(s.queues, k, r),
         drainers := if k in s.queues then s.drainers else s.drainers[task := Drainer(k, Spawning)],
         owner := if k in s.queues then s.owner else s.owner[k := task],
         entries := s.entries[r.id := Entry(r, Queued)],
         history := s.history[k := past.(enqueued := past.enqueued + [r])])
    case Spawn(task) => s.(drainers := s.drainers[task := s.drainers[task].(phase := Ready)])
    case PopStep(task) =>
      var k := s.drainers[task].key;
      var (queues, popped) := Pop(s.queues, k);
      (match popped
       case Missing => s.(drainers := s.drainers - {task}, missingExit := true)
       case Removed => s.(queues := queues, drainers := s.drainers - {task}, owner := s.owner - {k})
       case Batch(batch) =>
         s.(queues := queues,
            drainers := s.drainers[task := Drainer(k, Running(batch))],
            entries := Dispatched(s.entries, batch),
            history := s.history[k := s.Past(k).(active := batch, found := s.Past(k).found + [s.queues[k]])]))
    case Join(task) =>
      var k, batch := s.drainers[task].key, s.drainers[task].phase.batch;
      var past := s.Past(k);
      s.(drainers := s.drainers[task := Drainer(k, Ready)],
         history := s.history[k := past.(settled := past.settled + [batch], active := [])])
    case RunDirect(r) => s.(entries := s.entries[r.id := Entry(r, Waiting)])
    case CheckGate(id) =>
      var g := s.entries[id].request.gate;
      if s.GateOf(g).accepting then
        WithStatus(s, id, InBody).(gates := s.gates[g := Admitted(s.GateOf(g), id)])
      else WithStatus(s, id, Done)
    case FinishBody(id) =>
      var g := s.entries[id].request.gate;
      WithStatus(s, id, Done).(gates := s.gates[g := Released(s.GateOf(g), id)])
    case BeginShutdown(g) => s.(gates := s.gates[g := Shut(s.GateOf(g))])
    case EndShutdown(g) => s.(returned := s.returned + {g})
  }

  predicate LegalRun(s: State, steps: seq<Step>)
    decreases |steps|
  {
    steps == [] || (Enabled(s, steps[0]) && LegalRun(Apply(s, steps[0]), steps[1..]))
  }

  function After(s: State, steps: seq<Step>): State
    requires LegalRun(s, steps)
    decreases |steps|
  {
    if steps == [] then s else After(Apply(s, steps[0]), steps[1..])
  }

  // ---------- the invariant ----------

  function Flatten(batches: seq<seq<Request>>): seq<Request> {
    if batches == [] then [] else Flatten(batches[..|batches| - 1]) + batches[|batches| - 1]
  }

  predicate DistinctIds(rs: seq<Request>) {
    forall i, j :: 0 <= i < j < |rs| ==> rs[i].id != rs[j].id
  }

  type Entries = map<nat, Entry>

  predicate AllAre(entries: Entries, rs: seq<Request>, status: Status) {
    forall r :: r in rs ==> r.id in entries && entries[r.id] == Entry(r, status)
  }

  // Conservation and order on one key: everything enqueued, once, as settled batches, the active batch, the queue.
  predicate InOrder(past: History, queue: seq<Request>) {
    && past.enqueued == Flatten(past.settled) + past.active + queue
    && DistinctIds(past.enqueued)
    && (forall b :: b in past.settled ==> IsBatch(b))
    && (past.active == [] || IsBatch(past.active))
  }

  // Settled requests are done, queued ones untouched, active ones past the queue.
  predicate StatusesFit(entries: Entries, k: Key, past: History, queue: seq<Request>) {
    && (forall r :: r in past.enqueued ==> r.key == Some(k))
    && AllAre(entries, Flatten(past.settled), Done)
    && AllAre(entries, queue, Queued)
    && (forall r :: r in past.active ==>
          r.id in entries && entries[r.id].request == r && !entries[r.id].status.Queued?)
  }

  predicate KeyHistory(s: State, k: Key) {
    InOrder(s.Past(k), s.Queue(k)) && StatusesFit(s.entries, k, s.Past(k), s.Queue(k))
  }

  function Batches(past: History): seq<seq<Request>> {
    past.settled + (if past.active == [] then [] else [past.active])
  }

  // The i-th batch was taken from the head of the queue its drainer found, which was all that was left to dispatch.
  predicate TakenFromHead(past: History, i: nat) {
    i < |past.found| && i < |Batches(past)| ==>
      && past.found[i] != [] && Batches(past)[i] == past.found[i][..BatchLength(past.found[i])]
      && Flatten(Batches(past)[..i]) + past.found[i] <= past.enqueued
  }

  ghost predicate PopsRecorded(s: State, k: Key) {
    |s.Past(k).found| == |Batches(s.Past(k))| && forall i :: TakenFromHead(s.Past(k), i)
  }

  // A mapped key has its drainer, which awaits exactly the active batch.
  predicate KeyDrained(s: State, k: Key) {
    && (k in s.queues <==> k in s.owner)
    && (k in s.owner ==>
          && s.owner[k] in s.drainers
          && s.drainers[s.owner[k]].key == k
          && s.Past(k).active == (match s.drainers[s.owner[k]].phase case Running(b) => b case _ => [])
          && (s.drainers[s.owner[k]].phase.Running? ==> s.Past(k).active != []))
    && (k !in s.owner ==> s.Past(k).active == [])
  }

  // A drainer is the one its mapped key belongs to.
  predicate DrainerOwns(s: State, t: nat) {
    t in s.drainers ==> s.drainers[t].key in s.owner && s.owner[s.drainers[t].key] == t
  }

  // A serialised request that is waiting or in its body belongs to the batch its key is awaiting.
  predicate EntryPlaced(s: State, id: nat) {
    id in s.entries ==>
      && s.entries[id].request.id == id
      && (s.Live(id) && s.entries[id].request.key.Some? ==>
            s.entries[id].request in s.Past(s.entries[id].request.key.value).active)
  }

  // Tokens are exactly the bodies in flight, and a shutdown that returned left none behind.
  predicate TokenCounted(s: State, g: nat, id: nat) {
    id in s.GateOf(g).tokens <==> s.Is(id, InBody) && s.entries[id].request.gate == g
  }

  predicate ShutDown(s: State, g: nat) {
    g in s.returned ==> IsDrained(s.GateOf(g))
  }

  ghost predicate Inv(s: State) {
    && !s.missingExit
    && (forall k :: KeyHistory(s, k))
    && (forall k :: PopsRecorded(s, k))
    && (forall k :: KeyDrained(s, k))
    && (forall t :: DrainerOwns(s, t))
    && (forall id :: EntryPlaced(s, id))
    && (forall g, id :: TokenCounted(s, g, id))
    && (forall g :: ShutDown(s, g))
  }

  lemma FlattenSnoc(batches: seq<seq<Request>>, batch: seq<Request>)
    ensures Flatten(batches + [batch]) == Flatten(batches) + batch
  {
    assert (batches + [batch])[..|batches|] == batches;
  }

  lemma DistinctApart(a: seq<Request>, b: seq<Request>, r: Request)
    requires DistinctIds(a + b) && r in a
    ensures r !in b
  {
    var i :| 0 <= i < |a| && a[i] == r;
    forall j | 0 <= j < |b| ensures b[j] != r {
      assert (a + b)[i].id != (a + b)[|a| + j].id;
    }
  }

  lemma DistinctSnoc(rs: seq<Request>, r: Request)
    requires DistinctIds(rs) && forall x :: x in rs ==> x.id != r.id
    ensures DistinctIds(rs + [r])
  {
    forall i | 0 <= i < |rs| ensures rs[i].id != r.id { assert rs[i] in rs; }
  }

  lemma OrderEnqueue(past: History, queue: seq<Request>, r: Request)
    requires InOrder(past, queue) && forall x :: x in past.enqueued ==> x.id != r.id
    ensures InOrder(past.(enqueued := past.enqueued + [r]), queue + [r])
  {
    DistinctSnoc(past.enqueued, r);
    assert past.enqueued + [r] == Flatten(past.settled) + past.active + (queue + [r]);
  }

  lemma OrderPop(past: History, queue: seq<Request>)
    requires InOrder(past, queue) && past.active == [] && queue != []
    ensures var n := BatchLength(queue); InOrder(past.(active := queue[..n]), queue[n..])
  {
    var n := BatchLength(queue);
    BatchIsMaximal(queue);
    assert past.enqueued == Flatten(past.settled) + queue[..n] + queue[n..];
  }

  lemma OrderJoin(past: History, queue: seq<Request>)
    requires InOrder(past, queue) && past.active != []
    ensures InOrder(past.(settled := past.settled + [past.active], active := []), queue)
  {
    FlattenSnoc(past.settled, past.active);
    assert past.enqueued == Flatten(past.settled + [past.active]) + [] + queue;
  }

  lemma Parts(past: History, queue: seq<Request>)
    requires InOrder(past, queue)
    ensures forall r :: r in past.enqueued <==> r in Flatten(past.settled) || r in past.active || r in queue
  {}

  lemma StatusFramed(entries: Entries, entries': Entries, k: Key, past: History, queue: seq<Request>)
    requires InOrder(past, queue) && StatusesFit(entries, k, past, queue)
    requires forall r :: r in past.enqueued ==>
               r.id in entries' && (r.id in entries ==> entries'[r.id] == entries[r.id])
    ensures StatusesFit(entries', k, past, queue)
  {
    Parts(past, queue);
  }

  lemma StatusPop(entries: Entries, k: Key, past: History, queue: seq<Request>)
    requires InOrder(past, queue) && StatusesFit(entries, k, past, queue) && past.active == [] && queue != []
    ensures var n := BatchLength(queue);
            StatusesFit(Dispatched(entries, queue[..n]), k, past.(active := queue[..n]), queue[n..])
  {
    var n := BatchLength(queue);
    var batch, rest, settled := queue[..n], queue[n..], Flatten(past.settled);
    assert queue == batch + rest;
    assert past.enqueued == settled + (batch + rest) == (settled + batch) + rest;
    forall r | r in settled ensures r !in batch { DistinctApart(settled, batch + rest, r); }
    forall r | r in batch ensures r !in rest && r in queue { DistinctApart(settled + batch, rest, r); }
    forall r | r in rest ensures r in queue {}
  }

  lemma StatusJoin(entries: Entries, k: Key, past: History, queue: seq<Request>)
    requires StatusesFit(entries, k, past, queue)
    requires forall r :: r in past.active ==> r.id in entries && entries[r.id].status.Done?
    ensures StatusesFit(entries, k, past.(settled := past.settled + [past.active], active := []), queue)
  {
    FlattenSnoc(past.settled, past.active);
  }

  lemma StatusMoved(entries: Entries, k: Key, past: History, queue: seq<Request>, id: nat, status: Status)
    requires StatusesFit(entries, k, past, queue)
    requires id in entries && entries[id].status in {Waiting, InBody} && !status.Queued?
    ensures StatusesFit(entries[id := entries[id].(status := status)], k, past, queue)
  {}

  lemma FreshId(s: State, k: Key, r: Request)
    requires KeyHistory(s, k) && r.id !in s.entries
    ensures forall x :: x in s.Past(k).enqueued ==> x.id in s.entries && x.id != r.id
  {
    Parts(s.Past(k), s.Queue(k));
  }

  lemma EnqueueKeepsHistory(s: State, r: Request, task: nat, k: Key)
    requires KeyHistory(s, k) && Enabled(s, Enqueue(r, task))
    ensures KeyHistory(Apply(s, Enqueue(r, task)), k)
  {
    var s' := Apply(s, Enqueue(r, task));
    var past, queue := s.Past(k), s.Queue(k);
    FreshId(s, k, r);
    StatusFramed(s.entries, s'.entries, k, past, queue);
    if r.key == Some(k) {
      OrderEnqueue(past, queue, r);
      assert s'.Past(k) == past.(enqueued := past.enqueued + [r]) && s'.Queue(k) == queue + [r];
    } else {
      assert s'.Past(k) == past && s'.Queue(k) == queue;
    }
  }

  // The batch a drainer would pop: queued requests of its own key.
  lemma NextBatch(s: State, k: Key)
    requires KeyHistory(s, k) && s.Queue(k) != []
    ensures forall r :: r in s.Queue(k)[..BatchLength(s.Queue(k))] ==>
      r.key == Some(k) && r.id in s.entries && s.entries[r.id] == Entry(r, Queued)
  {
    Parts(s.Past(k), s.Queue(k));
  }

  lemma PopKeepsHistory(s: State, task: nat, k: Key)
    requires Inv(s) && Enabled(s, PopStep(task))
    ensures KeyHistory(Apply(s, PopStep(task)), k)
  {
    var own := s.drainers[task].key;
    assert DrainerOwns(s, task) && KeyDrained(s, own) && KeyHistory(s, own) && KeyHistory(s, k);
    if s.queues[own] == [] {
      assert Apply(s, PopStep(task)).Queue(k) == s.Queue(k);
    } else if k == own {
      PopKeepsOwnHistory(s, task);
    } else {
      PopKeepsOtherHistory(s, task, k);
    }
  }

  lemma PopKeepsOwnHistory(s: State, task: nat)
    requires Enabled(s, PopStep(task)) && KeyHistory(s, s.drainers[task].key)
    requires s.Queue(s.drainers[task].key) != [] && s.Past(s.drainers[task].key).active == []
    ensures KeyHistory(Apply(s, PopStep(task)), s.drainers[task].key)
  {
    var s', k := Apply(s, PopStep(task)), s.drainers[task].key;
    var past, queue := s.Past(k), s.Queue(k);
    OrderPop(past, queue);
    StatusPop(s.entries, k, past, queue);
    var n := BatchLength(queue);
    assert s'.Past(k) == past.(active := queue[..n], found := past.found + [queue]) && s'.Queue(k) == queue[n..];
  }

  lemma PopKeepsOtherHistory(s: State, task: nat, k: Key)
    requires Enabled(s, PopStep(task)) && k != s.drainers[task].key
    requires KeyHistory(s, k) && KeyHistory(s, s.drainers[task].key) && s.Queue(s.drainers[task].key) != []
    ensures KeyHistory(Apply(s, PopStep(task)), k)
  {
    var s' := Apply(s, PopStep(task));
    NextBatch(s, s.drainers[task].key);
    Parts(s.Past(k), s.Queue(k));
    assert s'.Past(k) == s.Past(k) && s'.Queue(k) == s.Queue(k);
    StatusFramed(s.entries, s'.entries, k, s.Past(k), s.Queue(k));
  }

  lemma JoinKeepsHistory(s: State, task: nat, k: Key)
    requires Inv(s) && Enabled(s, Join(task))
    ensures KeyHistory(Apply(s, Join(task)), k)
  {
    var s' := Apply(s, Join(task));
    var own := s.drainers[task].key;
    assert DrainerOwns(s, task) && KeyDrained(s, own) && KeyHistory(s, k);
    var past, queue := s.Past(k), s.Queue(k);
    assert s'.Queue(k) == queue;
    if k == own {
      OrderJoin(past, queue);
      StatusJoin(s.entries, k, past, queue);
      assert s'.Past(k) == past.(settled := past.settled + [past.active], active := []);
    } else {
      assert s'.Past(k) == past;
    }
  }

  // The shape of a gate check and of a finished body: one live request moves on.
  predicate MovesOn(s: State, s': State, id: nat, status: Status) {
    && s.Live(id) && !status.Queued?
    && s'.history == s.history && s'.queues == s.queues
    && s'.entries == s.entries[id := s.entries[id].(status := status)]
  }

  lemma MovesOnKeepsHistory(s: State, s': State, id: nat, status: Status, k: Key)
    requires KeyHistory(s, k) && MovesOn(s, s', id, status)
    ensures KeyHistory(s', k)
  {
    StatusMoved(s.entries, k, s.Past(k), s.Queue(k), id, status);
  }

  lemma CheckMovesOn(s: State, id: nat)
    requires Enabled(s, CheckGate(id))
    ensures MovesOn(s, Apply(s, CheckGate(id)), id,
                    if s.GateOf(s.entries[id].request.gate).accepting then InBody else Done)
  {
  }

  lemma FinishMovesOn(s: State, id: nat)
    requires Enabled(s, FinishBody(id))
    ensures MovesOn(s, Apply(s, FinishBody(id)), id, Done)
  {
  }

  lemma CheckKeepsHistory(s: State, id: nat, k: Key)
    requires KeyHistory(s, k) && Enabled(s, CheckGate(id))
    ensures KeyHistory(Apply(s, CheckGate(id)), k)
  {
    CheckMovesOn(s, id);
    var status := if s.GateOf(s.entries[id].request.gate).accepting then InBody else Done;
    MovesOnKeepsHistory(s, Apply(s, CheckGate(id)), id, status, k);
  }

  lemma FinishKeepsHistory(s: State, id: nat, k: Key)
    requires KeyHistory(s, k) && Enabled(s, FinishBody(id))
    ensures KeyHistory(Apply(s, FinishBody(id)), k)
  {
    FinishMovesOn(s, id);
    MovesOnKeepsHistory(s, Apply(s, FinishBody(id)), id, Done, k);
  }

  lemma StepKeepsHistory(s: State, step: Step, k: Key)
    requires Inv(s) && Enabled(s, step)
    ensures KeyHistory(Apply(s, step), k)
  {
    assert KeyHistory(s, k);
    match step
    case Enqueue(r, task) => EnqueueKeepsHistory(s, r, task, k);
    case PopStep(task) => PopKeepsHistory(s, task, k);
    case Join(task) => JoinKeepsHistory(s, task, k);
    case CheckGate(id) => CheckKeepsHistory(s, id, k);
    case FinishBody(id) => FinishKeepsHistory(s, id, k);
    case RunDirect(r) =>
      FreshId(s, k, r);
      StatusFramed(s.entries, Apply(s, step).entries, k, s.Past(k), s.Queue(k));
    case _ =>
  }

  lemma PopRecorded(past: History, queue: seq<Request>, i: nat)
    requires InOrder(past, queue) && past.active == [] && queue != [] && TakenFromHead(past, i)
    requires |past.found| == |Batches(past)|
    ensures var past' := past.(active := queue[..BatchLength(queue)], found := past.found + [queue]);
            |past'.found| == |Batches(past')| && TakenFromHead(past', i)
  {
    var past' := past.(active := queue[..BatchLength(queue)], found := past.found + [queue]);
    assert Batches(past) == past.settled && Batches(past') == past.settled + [past'.active];
    if i < |past.settled| {
      assert Batches(past')[..i] == past.settled[..i] == Batches(past)[..i];
    } else if i == |past.settled| {
      assert Batches(past')[..i] == past.settled;
      assert past.enqueued == Flatten(past.settled) + queue;
    }
  }

  lemma JoinRecorded(past: History, i: nat)
    requires past.active != [] && TakenFromHead(past, i)
    ensures var past' := past.(settled := past.settled + [past.active], active := []);
            Batches(past') == Batches(past) && TakenFromHead(past', i)
  {
    var past' := past.(settled := past.settled + [past.active], active := []);
    assert Batches(past') == Batches(past);
  }

  lemma EnqueueRecorded(past: History, r: Request, i: nat)
    requires TakenFromHead(past, i)
    ensures TakenFromHead(past.(enqueued := past.enqueued + [r]), i)
  {
    assert Batches(past.(enqueued := past.enqueued + [r])) == Batches(past);
  }

  lemma PopKeepsPops(s: State, task: nat)
    requires Inv(s) && Enabled(s, PopStep(task))
    ensures PopsRecorded(Apply(s, PopStep(task)), s.drainers[task].key)
  {
    var k, s' := s.drainers[task].key, Apply(s, PopStep(task));
    assert DrainerOwns(s, task) && KeyDrained(s, k) && KeyHistory(s, k) && PopsRecorded(s, k);
    if s.Queue(k) != [] {
      var past, queue := s.Past(k), s.Queue(k);
      assert s'.Past(k) == past.(active := queue[..BatchLength(queue)], found := past.found + [queue]);
      forall i: nat ensures |s'.Past(k).found| == |Batches(s'.Past(k))| && TakenFromHead(s'.Past(k), i) {
        assert TakenFromHead(past, i);
        PopRecorded(past, queue, i);
      }
      PopRecorded(past, queue, 0);
    }
  }

  lemma JoinKeepsPops(s: State, task: nat)
    requires Inv(s) && Enabled(s, Join(task))
    ensures PopsRecorded(Apply(s, Join(task)), s.drainers[task].key)
  {
    var k, s' := s.drainers[task].key, Apply(s, Join(task));
    assert DrainerOwns(s, task) && KeyDrained(s, k) && PopsRecorded(s, k);
    var past := s.Past(k);
    assert s'.Past(k) == past.(settled := past.settled + [past.active], active := []);
    forall i: nat ensures Batches(s'.Past(k)) == Batches(past) && TakenFromHead(s'.Past(k), i) {
      assert TakenFromHead(past, i);
      JoinRecorded(past, i);
    }
    JoinRecorded(past, 0);
  }

  lemma StepKeepsPops(s: State, step: Step, k: Key)
    requires Inv(s) && Enabled(s, step)
    ensures PopsRecorded(Apply(s, step), k)
  {
    assert PopsRecorded(s, k);
    match step
    case PopStep(task) =>
      if s.drainers[task].key == k { PopKeepsPops(s, task); } else { assert Apply(s, step).Past(k) == s.Past(k); }
    case Join(task) =>
      if s.drainers[task].key == k { JoinKeepsPops(s, task); } else { assert Apply(s, step).Past(k) == s.Past(k); }
    case Enqueue(r, _) =>
      if r.key == Some(k) {
        forall i: nat ensures TakenFromHead(Apply(s, step).Past(k), i) {
          assert TakenFromHead(s.Past(k), i);
          EnqueueRecorded(s.Past(k), r, i);
        }
      } else {
        assert Apply(s, step).Past(k) == s.Past(k);
      }
    case Spawn(_) => assert Apply(s, step).Past(k) == s.Past(k);
    case _ =>
      OthersKeepQueues(s, step);
      SameQueuesSameKey(s, Apply(s, step), k);
  }

  lemma EnqueueKeepsDrained(s: State, step: Step, k: Key)
    requires step.Enqueue? && Enabled(s, step) && KeyDrained(s, k)
    requires k in s.owner ==> DrainerOwns(s, s.owner[k])
    ensures KeyDrained(Apply(s, step), k)
  {
    assert Apply(s, step).Past(k).active == s.Past(k).active;
  }

  lemma SpawnKeepsDrained(s: State, task: nat, k: Key)
    requires Enabled(s, Spawn(task)) && KeyDrained(s, k) && DrainerOwns(s, task)
    ensures KeyDrained(Apply(s, Spawn(task)), k)
  {
  }

  lemma JoinKeepsDrained(s: State, task: nat, k: Key)
    requires Enabled(s, Join(task)) && KeyDrained(s, k) && DrainerOwns(s, task)
    ensures KeyDrained(Apply(s, Join(task)), k)
  {
  }

  // Steps of request bodies and of gates touch neither queues nor drainers.
  predicate SameQueues(s: State, s': State) {
    s'.queues == s.queues && s'.owner == s.owner && s'.drainers == s.drainers && s'.history == s.history
  }

  lemma BodyStepKeepsQueues(s: State, step: Step)
    requires (step.RunDirect? || step.CheckGate? || step.FinishBody?) && Enabled(s, step)
    ensures SameQueues(s, Apply(s, step))
  {
    match step
    case RunDirect(_) =>
    case CheckGate(id) => if s.GateOf(s.entries[id].request.gate).accepting {}
    case FinishBody(_) =>
  }

  lemma GateStepKeepsQueues(s: State, step: Step)
    requires (step.BeginShutdown? || step.EndShutdown?) && Enabled(s, step)
    ensures SameQueues(s, Apply(s, step))
  {
    match step
    case BeginShutdown(_) =>
    case EndShutdown(_) =>
  }

  lemma SameQueuesSameKey(s: State, s': State, k: Key)
    requires SameQueues(s, s')
    ensures KeyDrained(s', k) == KeyDrained(s, k) && s'.Past(k) == s.Past(k) && s'.Queue(k) == s.Queue(k)
  {
  }

  lemma OthersKeepQueues(s: State, step: Step)
    requires !step.Enqueue? && !step.PopStep? && !step.Join? && !step.Spawn? && Enabled(s, step)
    ensures SameQueues(s, Apply(s, step))
  {
    if step.BeginShutdown? || step.EndShutdown? { GateStepKeepsQueues(s, step); } else { BodyStepKeepsQueues(s, step); }
  }

  lemma StepKeepsDrained(s: State, step: Step, k: Key)
    requires Inv(s) && Enabled(s, step)
    ensures KeyDrained(Apply(s, step), k)
  {
    assert KeyDrained(s, k);
    match step
    case Enqueue(_, _) =>
      if k in s.owner { assert DrainerOwns(s, s.owner[k]); }
      EnqueueKeepsDrained(s, step, k);
    case PopStep(task) => PopKeepsDrained(s, task, k);
    case Join(task) =>
      assert DrainerOwns(s, task);
      JoinKeepsDrained(s, task, k);
    case Spawn(task) =>
      assert DrainerOwns(s, task);
      SpawnKeepsDrained(s, task, k);
    case _ =>
      OthersKeepQueues(s, step);
      SameQueuesSameKey(s, Apply(s, step), k);
  }

  lemma PopKeepsDrained(s: State, task: nat, k: Key)
    requires Inv(s) && Enabled(s, PopStep(task))
    ensures KeyDrained(Apply(s, PopStep(task)), k)
  {
    var own := s.drainers[task].key;
    assert KeyDrained(s, k) && DrainerOwns(s, task) && KeyDrained(s, own);
    var s' := Apply(s, PopStep(task));
    if k == own {
      if s.queues[own] != [] { assert s'.Past(k).active != []; }
    } else {
      assert s'.Past(k) == s.Past(k);
    }
  }

  lemma StepKeepsOwners(s: State, step: Step, t: nat)
    requires Inv(s) && Enabled(s, step)
    ensures DrainerOwns(Apply(s, step), t) && !Apply(s, step).missingExit
  {
    assert DrainerOwns(s, t);
    match step
    case Enqueue(r, task) => assert KeyDrained(s, r.key.value);
    case Spawn(task) => assert DrainerOwns(s, task);
    case PopStep(task) => assert DrainerOwns(s, task) && KeyDrained(s, s.drainers[task].key);
    case Join(task) => assert DrainerOwns(s, task);
    case _ =>
  }

  lemma PopKeepsPlaces(s: State, task: nat, id: nat)
    requires Inv(s) && Enabled(s, PopStep(task))
    ensures EntryPlaced(Apply(s, PopStep(task)), id)
  {
    var k := s.drainers[task].key;
    assert EntryPlaced(s, id) && DrainerOwns(s, task) && KeyDrained(s, k) && KeyHistory(s, k);
    if s.Queue(k) != [] { NextBatch(s, k); }
  }

  lemma PopKeepsTokens(s: State, task: nat, g: nat, id: nat)
    requires Inv(s) && Enabled(s, PopStep(task))
    ensures TokenCounted(Apply(s, PopStep(task)), g, id)
  {
    var k := s.drainers[task].key;
    assert TokenCounted(s, g, id) && EntryPlaced(s, id);
    assert DrainerOwns(s, task) && KeyDrained(s, k) && KeyHistory(s, k);
    if s.Queue(k) != [] { NextBatch(s, k); }
  }

  lemma EnqueueKeepsPlaces(s: State, step: Step, id: nat)
    requires (step.Enqueue? || step.RunDirect?) && Enabled(s, step) && EntryPlaced(s, id)
    requires step.RunDirect? ==> step.request.key.None?
    ensures EntryPlaced(Apply(s, step), id)
  {
    var s' := Apply(s, step);
    assert forall k :: s'.Past(k).active == s.Past(k).active;
  }

  lemma MovesOnKeepsPlaces(s: State, s': State, moved: nat, status: Status, id: nat)
    requires EntryPlaced(s, id) && MovesOn(s, s', moved, status)
    ensures EntryPlaced(s', id)
  {
    assert id in s.entries ==> s'.entries[id].request == s.entries[id].request;
  }

  lemma CheckKeepsPlaces(s: State, moved: nat, id: nat)
    requires EntryPlaced(s, id) && Enabled(s, CheckGate(moved))
    ensures EntryPlaced(Apply(s, CheckGate(moved)), id)
  {
    CheckMovesOn(s, moved);
    var status := if s.GateOf(s.entries[moved].request.gate).accepting then InBody else Done;
    MovesOnKeepsPlaces(s, Apply(s, CheckGate(moved)), moved, status, id);
  }

  lemma FinishKeepsPlaces(s: State, moved: nat, id: nat)
    requires EntryPlaced(s, id) && Enabled(s, FinishBody(moved))
    ensures EntryPlaced(Apply(s, FinishBody(moved)), id)
  {
    FinishMovesOn(s, moved);
    MovesOnKeepsPlaces(s, Apply(s, FinishBody(moved)), moved, Done, id);
  }

  lemma JoinKeepsPlaces(s: State, task: nat, id: nat)
    requires Enabled(s, Join(task)) && EntryPlaced(s, id)
    requires KeyDrained(s, s.drainers[task].key) && DrainerOwns(s, task)
    ensures EntryPlaced(Apply(s, Join(task)), id)
  {
  }

  lemma StepKeepsPlaces(s: State, step: Step, id: nat)
    requires Inv(s) && Enabled(s, step)
    ensures EntryPlaced(Apply(s, step), id)
  {
    assert EntryPlaced(s, id);
    match step
    case PopStep(task) => PopKeepsPlaces(s, task, id);
    case Join(task) =>
      assert DrainerOwns(s, task) && KeyDrained(s, s.drainers[task].key);
      JoinKeepsPlaces(s, task, id);
    case Enqueue(_, _) => EnqueueKeepsPlaces(s, step, id);
    case RunDirect(_) => EnqueueKeepsPlaces(s, step, id);
    case CheckGate(moved) => CheckKeepsPlaces(s, moved, id);
    case FinishBody(moved) => FinishKeepsPlaces(s, moved, id);
    case _ =>
  }

  lemma CheckKeepsTokens(s: State, moved: nat, g: nat, id: nat)
    requires Enabled(s, CheckGate(moved)) && TokenCounted(s, g, id)
    ensures TokenCounted(Apply(s, CheckGate(moved)), g, id)
  {
    var s', gate := Apply(s, CheckGate(moved)), s.entries[moved].request.gate;
    if s.GateOf(gate).accepting {
      assert s'.entries == WithStatus(s, moved, InBody).entries;
      assert s'.GateOf(g).tokens == if g == gate then s.GateOf(g).tokens + {moved} else s.GateOf(g).tokens;
    } else {
      assert s'.entries == WithStatus(s, moved, Done).entries && s'.GateOf(g) == s.GateOf(g);
    }
  }

  lemma FinishKeepsTokens(s: State, moved: nat, g: nat, id: nat)
    requires Enabled(s, FinishBody(moved)) && TokenCounted(s, g, id)
    ensures TokenCounted(Apply(s, FinishBody(moved)), g, id)
  {
    var s' := Apply(s, FinishBody(moved));
    if id != moved { assert s'.Is(id, InBody) == s.Is(id, InBody); }
  }

  lemma OtherStepsKeepTokens(s: State, step: Step, g: nat, id: nat)
    requires !step.CheckGate? && !step.FinishBody? && !step.PopStep? && Enabled(s, step) && TokenCounted(s, g, id)
    ensures TokenCounted(Apply(s, step), g, id)
  {
  }

  lemma StepKeepsTokens(s: State, step: Step, g: nat, id: nat)
    requires Inv(s) && Enabled(s, step)
    ensures TokenCounted(Apply(s, step), g, id)
  {
    assert TokenCounted(s, g, id);
    match step
    case PopStep(task) => PopKeepsTokens(s, task, g, id);
    case CheckGate(moved) => CheckKeepsTokens(s, moved, g, id);
    case FinishBody(moved) => FinishKeepsTokens(s, moved, g, id);
    case _ => OtherStepsKeepTokens(s, step, g, id);
  }

  lemma StepKeepsShutDown(s: State, step: Step, g: nat)
    requires Inv(s) && Enabled(s, step)
    ensures ShutDown(Apply(s, step), g)
  {
    assert ShutDown(s, g);
    match step
    case FinishBody(id) => assert TokenCounted(s, g, id);
    case _ =>
  }

  lemma StepKeepsInv(s: State, step: Step)
    requires Inv(s) && Enabled(s, step)
    ensures Inv(Apply(s, step))
  {
    var s' := Apply(s, step);
    forall k ensures KeyHistory(s', k) { StepKeepsHistory(s, step, k); }
    forall k ensures PopsRecorded(s', k) { StepKeepsPops(s, step, k); }
    forall k ensures KeyDrained(s', k) { StepKeepsDrained(s, step, k); }
    forall t ensures DrainerOwns(s', t) && !s'.missingExit { StepKeepsOwners(s, step, t); }
    forall id ensures EntryPlaced(s', id) { StepKeepsPlaces(s, step, id); }
    forall g, id ensures TokenCounted(s', g, id) { StepKeepsTokens(s, step, g, id); }
    forall g ensures ShutDown(s', g) { StepKeepsShutDown(s, step, g); }
    StepKeepsOwners(s, step, 0);
  }

  lemma InitialInv()
    ensures Inv(INITIAL)
  {}

  /** The invariant holds in every state of every interleaving. */
  lemma {:induction false} RunKeepsInv(s: State, steps: seq<Step>)
    requires Inv(s) && LegalRun(s, steps)
    ensures Inv(After(s, steps))
    decreases |steps|
  {
    if steps != [] {
      StepKeepsInv(s, steps[0]);
      RunKeepsInv(Apply(s, steps[0]), steps[1..]);
    }
  }

  // So every lemma below that asks for the invariant speaks of every reachable state.
  lemma EveryInterleaving(steps: seq<Step>)
    requires LegalRun(INITIAL, steps)
    ensures Inv(After(INITIAL, steps))
  {
    InitialInv();
    RunKeepsInv(INITIAL, steps);
  }

  /** At most one drainer per key, and it exists exactly while the key is mapped; the missing-queue exit is dead. */
  lemma OneDrainerPerKey(s: State)
    requires Inv(s)
    ensures !s.missingExit
    ensures forall t, u :: t in s.drainers && u in s.drainers && s.drainers[t].key == s.drainers[u].key ==> t == u
    ensures forall k :: k in s.queues <==> exists t :: t in s.drainers && s.drainers[t].key == k
  {
    forall t, u | t in s.drainers && u in s.drainers && s.drainers[t].key == s.drainers[u].key ensures t == u {
      assert DrainerOwns(s, t) && DrainerOwns(s, u);
    }
    assert forall t :: t in s.drainers ==> DrainerOwns(s, t);
    forall k ensures k in s.queues <==> exists t :: t in s.drainers && s.drainers[t].key == k {
      assert KeyDrained(s, k);
      if k in s.queues { assert s.drainers[s.owner[k]].key == k; }
    }
  }

  /** In every reachable state each batch dispatched so far was, when popped, one exclusive request or all the reads
      up to the next exclusive one, at the head of all that was left to dispatch. */
  lemma EveryBatchMaximal(s: State, k: Key, i: nat)
    requires Inv(s) && i < |Batches(s.Past(k))|
    ensures i < |s.Past(k).found|
    ensures var past := s.Past(k);
            var batch, queue := Batches(past)[i], past.found[i];
            && batch <= queue && Flatten(Batches(past)[..i]) + queue <= past.enqueued
            && batch != [] && (batch[0].access.Exclusive? ==> |batch| == 1)
            && (batch[0].access.SharedRead? ==>
                  && (forall r :: r in batch ==> r.access.SharedRead?)
                  && (|batch| < |queue| ==> queue[|batch|].access.Exclusive?))
  {
    assert PopsRecorded(s, k) && TakenFromHead(s.Past(k), i);
    BatchIsMaximal(s.Past(k).found[i]);
  }

  /** Two requests of one key that are past the queue and not finished are both shared reads. */
  lemma MutualExclusion(s: State, a: nat, b: nat)
    requires Inv(s) && a != b && s.Live(a) && s.Live(b)
    requires s.entries[a].request.key.Some? && s.entries[a].request.key == s.entries[b].request.key
    ensures s.entries[a].request.access.SharedRead? && s.entries[b].request.access.SharedRead?
  {
    var k := s.entries[a].request.key.value;
    assert EntryPlaced(s, a) && EntryPlaced(s, b) && KeyHistory(s, k);
    var active := s.Past(k).active;
    var i :| 0 <= i < |active| && active[i] == s.entries[a].request;
    var j :| 0 <= j < |active| && active[j] == s.entries[b].request;
  }

  /** Nothing overtakes: once the j-th request of a key is dispatched, every earlier one is finished, unless both
      sit in the same batch of shared reads. */
  lemma NoOvertaking(s: State, k: Key, i: nat, j: nat)
    requires Inv(s) && i < j < |s.Past(k).enqueued|
    requires !s.Is(s.Past(k).enqueued[j].id, Queued)
    ensures var past := s.Past(k);
            || s.Is(past.enqueued[i].id, Done)
            || (past.enqueued[i] in past.active && past.enqueued[j] in past.active
                && past.enqueued[i].access.SharedRead? && past.enqueued[j].access.SharedRead?)
  {
    assert KeyHistory(s, k);
    var past := s.Past(k);
    var settled := Flatten(past.settled);
    assert forall n :: |settled| + |past.active| <= n < |past.enqueued| ==> past.enqueued[n] in s.Queue(k);
    if i < |settled| {
      assert past.enqueued[i] == settled[i] && settled[i] in settled;
    } else {
      assert past.enqueued[i] == past.active[i - |settled|] && past.enqueued[j] == past.active[j - |settled|];
    }
  }

  // ---------- gates over whole runs ----------

  lemma StepKeepsGateClosed(s: State, step: Step, g: nat)
    requires Enabled(s, step) && !s.GateOf(g).accepting
    ensures !Apply(s, step).GateOf(g).accepting && Apply(s, step).GateOf(g).tokens <= s.GateOf(g).tokens
  {}

  /** Once `accepting` is false no body starts on the gate, in any continuation: the bodies in flight only shrink. */
  lemma {:induction false} NoBodyAfterClose(s: State, steps: seq<Step>, g: nat)
    requires Inv(s) && LegalRun(s, steps) && !s.GateOf(g).accepting
    ensures var later := After(s, steps);
            && !later.GateOf(g).accepting
            && forall id :: later.Is(id, InBody) && later.entries[id].request.gate == g ==>
                 s.Is(id, InBody) && s.entries[id].request.gate == g
    decreases |steps|
  {
    if steps != [] {
      StepKeepsGateClosed(s, steps[0], g);
      StepKeepsInv(s, steps[0]);
      var s' := Apply(s, steps[0]);
      NoBodyAfterClose(s', steps[1..], g);
      forall id | s'.Is(id, InBody) && s'.entries[id].request.gate == g
        ensures s.Is(id, InBody) && s.entries[id].request.gate == g
      {
        assert TokenCounted(s', g, id) && TokenCounted(s, g, id);
      }
    }
  }

  /** After a `shutdown` call has returned, no body is in flight on its gate, then or ever after. */
  lemma ShutdownIsFinal(s: State, steps: seq<Step>, g: nat, id: nat)
    requires Inv(s) && LegalRun(s, steps) && g in s.returned
    ensures !(After(s, steps).Is(id, InBody) && After(s, steps).entries[id].request.gate == g)
  {
    assert ShutDown(s, g) && TokenCounted(s, g, id);
    NoBodyAfterClose(s, steps, g);
  }

  /** From the moment `shutdown` is called, whatever happens next, the gate accepts nothing and the bodies in flight
      on it are among those in flight before the call. */
  lemma ShutdownStopsBodies(s: State, g: nat, rest: seq<Step>)
    requires Inv(s) && LegalRun(s, [BeginShutdown(g)] + rest)
    ensures var later := After(s, [BeginShutdown(g)] + rest);
            && !later.GateOf(g).accepting
            && forall id :: later.Is(id, InBody) && later.entries[id].request.gate == g ==>
                 s.Is(id, InBody) && s.entries[id].request.gate == g
  {
    var steps := [BeginShutdown(g)] + rest;
    assert steps[0] == BeginShutdown(g) && steps[1..] == rest;
    var closed := Apply(s, BeginShutdown(g));
    StepKeepsInv(s, BeginShutdown(g));
    assert !closed.GateOf(g).accepting && closed.entries == s.entries;
    NoBodyAfterClose(closed, rest, g);
  }

  /** A request that reaches its gate runs its body while the gate accepts, and is finished unrun once it does not. */
  lemma GateDecides(s: State, id: nat)
    requires s.Is(id, Waiting)
    ensures Enabled(s, CheckGate(id))
    ensures var later, g := Apply(s, CheckGate(id)), s.entries[id].request.gate;
            if s.GateOf(g).accepting then
              later.Is(id, InBody) && later.GateOf(g) == Gate(true, s.GateOf(g).tokens + {id})
            else later.Is(id, Done) && later.GateOf(g) == s.GateOf(g)
  {
  }

  // A request without a key goes to its gate at once.
  lemma DirectRequestsWait(s: State, r: Request)
    requires r.key.None? && r.id !in s.entries
    ensures Enabled(s, RunDirect(r)) && Apply(s, RunDirect(r)).Is(r.id, Waiting)
    ensures Apply(s, RunDirect(r)).queues == s.queues && Apply(s, RunDirect(r)).drainers == s.drainers
  {
  }

  // Only bodies in flight on the gate finish.
  predicate OnlyFinishes(steps: seq<Step>) { forall i :: 0 <= i < |steps| ==> steps[i].FinishBody? }

  /** Once the gate is closed, finishing the bodies in flight on it is enough for `shutdown` to return. */
  lemma {:induction false} ShutdownCanReturn(s: State, g: nat) returns (steps: seq<Step>)
    requires Inv(s) && !s.GateOf(g).accepting
    ensures LegalRun(s, steps) && OnlyFinishes(steps) && |steps| == |s.GateOf(g).tokens|
    ensures Enabled(After(s, steps), EndShutdown(g))
    decreases |s.GateOf(g).tokens|
  {
    if s.GateOf(g).tokens == {} {
      steps := [];
    } else {
      var id :| id in s.GateOf(g).tokens;
      assert TokenCounted(s, g, id);
      var s' := Apply(s, FinishBody(id));
      StepKeepsInv(s, FinishBody(id));
      assert s'.GateOf(g) == Gate(false, s.GateOf(g).tokens - {id});
      var rest := ShutdownCanReturn(s', g);
      steps := [FinishBody(id)] + rest;
      assert steps[1..] == rest;
    }
  }

  // ---------- draining ends ----------

  function Weight(entries: Entries, rs: seq<Request>): nat {
    if rs == [] then 0
    else
      var last := rs[|rs| - 1];
      Weight(entries, rs[..|rs| - 1]) +
      (if last.id !in entries then 0 else match entries[last.id].status case Waiting => 2 case InBody => 1 case _ => 0)
  }

  function PhaseWork(entries: Entries, phase: Phase): nat {
    match phase
    case Spawning => 2
    case Ready => 1
    case Running(batch) => 2 + Weight(entries, batch)
  }

  // Upper bound on the steps still to be taken on a key if nothing more is enqueued there.
  function Work(s: State, k: Key): nat {
    if k !in s.owner || s.owner[k] !in s.drainers then 0
    else 4 * |s.Queue(k)| + PhaseWork(s.entries, s.drainers[s.owner[k]].phase)
  }

  predicate Concerns(s: State, step: Step, k: Key) {
    match step
    case Spawn(t) => t in s.drainers && s.drainers[t].key == k
    case PopStep(t) => t in s.drainers && s.drainers[t].key == k
    case Join(t) => t in s.drainers && s.drainers[t].key == k
    case CheckGate(id) => id in s.entries && s.entries[id].request.key == Some(k)
    case FinishBody(id) => id in s.entries && s.entries[id].request.key == Some(k)
    case _ => false
  }

  predicate Adds(step: Step, k: Key) { step.Enqueue? && step.request.key == Some(k) }

  lemma {:induction false} WeightBound(entries: Entries, rs: seq<Request>)
    ensures Weight(entries, rs) <= 2 * |rs|
  {
    if rs != [] { WeightBound(entries, rs[..|rs| - 1]); }
  }

  lemma {:induction false} WeightSame(e: Entries, e': Entries, rs: seq<Request>)
    requires forall r :: r in rs ==> r.id in e && r.id in e' && e[r.id] == e'[r.id]
    ensures Weight(e, rs) == Weight(e', rs)
  {
    if rs != [] {
      assert rs[|rs| - 1] in rs;
      WeightSame(e, e', rs[..|rs| - 1]);
    }
  }

  lemma {:induction false} WeightDrops(e: Entries, rs: seq<Request>, id: nat, status: Status)
    requires id in e && (e[id].status.Waiting? || (e[id].status.InBody? && status.Done?)) && status in {InBody, Done}
    ensures Weight(e[id := e[id].(status := status)], rs) <= Weight(e, rs)
    ensures (exists r :: r in rs && r.id == id) ==> Weight(e[id := e[id].(status := status)], rs) < Weight(e, rs)
  {
    if rs != [] { WeightDrops(e, rs[..|rs| - 1], id, status); }
  }

  lemma {:induction false} WeightZero(e: Entries, rs: seq<Request>)
    requires forall r :: r in rs ==> r.id in e && !e[r.id].status.Waiting? && !e[r.id].status.InBody?
    ensures Weight(e, rs) == 0
  {
    if rs != [] {
      assert rs[|rs| - 1] in rs;
      WeightZero(e, rs[..|rs| - 1]);
    }
  }

  lemma PopDoesWork(s: State, task: nat)
    requires Inv(s) && Enabled(s, PopStep(task))
    ensures Work(Apply(s, PopStep(task)), s.drainers[task].key) < Work(s, s.drainers[task].key)
  {
    var k, s' := s.drainers[task].key, Apply(s, PopStep(task));
    assert DrainerOwns(s, task) && KeyDrained(s, k);
    if s.Queue(k) != [] { WeightBound(s'.entries, s.Queue(k)[..BatchLength(s.Queue(k))]); }
  }

  lemma JoinDoesWork(s: State, task: nat)
    requires Inv(s) && Enabled(s, Join(task))
    ensures Work(Apply(s, Join(task)), s.drainers[task].key) < Work(s, s.drainers[task].key)
  {
    assert DrainerOwns(s, task) && KeyDrained(s, s.drainers[task].key);
    WeightZero(s.entries, s.drainers[task].phase.batch);
  }

  lemma StatusDoesWork(s: State, step: Step, k: Key)
    requires step.CheckGate? || step.FinishBody?
    requires Inv(s) && Enabled(s, step) && Concerns(s, step, k)
    ensures Work(Apply(s, step), k) < Work(s, k)
  {
    var id := step.id;
    assert EntryPlaced(s, id) && KeyDrained(s, k);
    WeightDrops(s.entries, s.Past(k).active, id, Apply(s, step).entries[id].status);
  }

  /** Every step taken on a key uses up work ... */
  lemma StepDoesWork(s: State, step: Step, k: Key)
    requires Inv(s) && Enabled(s, step) && Concerns(s, step, k)
    ensures Work(Apply(s, step), k) < Work(s, k)
  {
    match step
    case Spawn(task) => assert DrainerOwns(s, task);
    case PopStep(task) => PopDoesWork(s, task);
    case Join(task) => JoinDoesWork(s, task);
    case CheckGate(_) => StatusDoesWork(s, step, k);
    case FinishBody(_) => StatusDoesWork(s, step, k);
  }

  // Entries of a key's active batch that one step leaves as they are.
  predicate ActiveUntouched(s: State, s': State, k: Key) {
    forall r :: r in s.Past(k).active ==> r.id in s.entries && r.id in s'.entries && s.entries[r.id] == s'.entries[r.id]
  }

  lemma PopLeavesActive(s: State, task: nat, k: Key)
    requires Inv(s) && Enabled(s, PopStep(task)) && s.drainers[task].key != k
    ensures ActiveUntouched(s, Apply(s, PopStep(task)), k)
  {
    assert KeyHistory(s, k);
    Parts(s.Past(k), s.Queue(k));
    var own := s.drainers[task].key;
    assert DrainerOwns(s, task) && KeyDrained(s, own) && KeyHistory(s, own);
    if s.Queue(own) != [] { NextBatch(s, own); }
  }

  lemma MovedElsewhere(s: State, s': State, id: nat, status: Status, k: Key)
    requires KeyHistory(s, k) && MovesOn(s, s', id, status) && s.entries[id].request.key != Some(k)
    ensures ActiveUntouched(s, s', k)
  {
    Parts(s.Past(k), s.Queue(k));
  }

  lemma AddedElsewhere(s: State, s': State, r: Request, status: Status, k: Key)
    requires KeyHistory(s, k) && r.id !in s.entries && s'.entries == s.entries[r.id := Entry(r, status)]
    ensures ActiveUntouched(s, s', k)
  {
    Parts(s.Past(k), s.Queue(k));
  }

  lemma StepLeavesActive(s: State, step: Step, k: Key)
    requires !step.PopStep? && Enabled(s, step) && !Concerns(s, step, k) && KeyHistory(s, k)
    ensures ActiveUntouched(s, Apply(s, step), k)
  {
    var s' := Apply(s, step);
    match step
    case Enqueue(r, _) => AddedElsewhere(s, s', r, Queued, k);
    case RunDirect(r) => AddedElsewhere(s, s', r, Waiting, k);
    case CheckGate(id) =>
      CheckMovesOn(s, id);
      MovedElsewhere(s, s', id, s'.entries[id].status, k);
    case FinishBody(id) =>
      FinishMovesOn(s, id);
      MovedElsewhere(s, s', id, Done, k);
    case _ => Parts(s.Past(k), s.Queue(k));
  }

  // A key's queue, owner and drainer stand still.
  predicate StandsStill(s: State, s': State, k: Key) {
    && s'.Queue(k) == s.Queue(k) && (k in s'.owner <==> k in s.owner)
    && (k in s.owner ==>
          s'.owner[k] == s.owner[k] && s.owner[k] in s.drainers && s.owner[k] in s'.drainers &&
          s'.drainers[s.owner[k]] == s.drainers[s.owner[k]])
  }

  lemma WorkFramed(s: State, s': State, k: Key)
    requires KeyDrained(s, k) && ActiveUntouched(s, s', k) && StandsStill(s, s', k)
    ensures Work(s', k) == Work(s, k)
  {
    WeightSame(s.entries, s'.entries, s.Past(k).active);
  }

  lemma PopElsewhere(s: State, task: nat, k: Key)
    requires Enabled(s, PopStep(task)) && s.drainers[task].key != k && KeyDrained(s, k)
    ensures StandsStill(s, Apply(s, PopStep(task)), k)
  {
  }

  lemma StepElsewhere(s: State, step: Step, k: Key)
    requires !step.PopStep? && Enabled(s, step) && !Concerns(s, step, k) && !Adds(step, k) && KeyDrained(s, k)
    ensures StandsStill(s, Apply(s, step), k)
  {
  }

  /** ... and steps elsewhere leave it alone ... */
  lemma OtherStepsKeepWork(s: State, step: Step, k: Key)
    requires Inv(s) && Enabled(s, step) && !Concerns(s, step, k) && !Adds(step, k)
    ensures Work(Apply(s, step), k) == Work(s, k)
  {
    assert KeyDrained(s, k) && KeyHistory(s, k);
    if step.PopStep? {
      PopLeavesActive(s, step.task, k);
      PopElsewhere(s, step.task, k);
    } else {
      StepLeavesActive(s, step, k);
      StepElsewhere(s, step, k);
    }
    WorkFramed(s, Apply(s, step), k);
  }

  /** ... while a mapped key always has a step to take, even if every gate is closed. */
  lemma KeyCanStep(s: State, k: Key) returns (step: Step)
    requires Inv(s) && k in s.queues
    ensures Enabled(s, step) && Concerns(s, step, k)
  {
    assert KeyDrained(s, k) && KeyHistory(s, k);
    var task := s.owner[k];
    match s.drainers[task].phase
    case Spawning => step := Spawn(task);
    case Ready => step := PopStep(task);
    case Running(batch) =>
      if forall r :: r in batch ==> s.Is(r.id, Done) {
        step := Join(task);
      } else {
        var r :| r in batch && !s.Is(r.id, Done);
        Parts(s.Past(k), s.Queue(k));
        step := if s.Is(r.id, Waiting) then CheckGate(r.id) else FinishBody(r.id);
      }
  }

  function StepsOn(s: State, steps: seq<Step>, k: Key): nat
    requires LegalRun(s, steps)
    decreases |steps|
  {
    if steps == [] then 0
    else (if Concerns(s, steps[0], k) then 1 else 0) + StepsOn(Apply(s, steps[0]), steps[1..], k)
  }

  function BatchesOn(s: State, k: Key): nat {
    |s.Past(k).settled| + (if s.Past(k).active == [] then 0 else 1)
  }

  lemma PopUsesQueue(s: State, task: nat, k: Key)
    requires Enabled(s, PopStep(task)) && KeyDrained(s, s.drainers[task].key) && DrainerOwns(s, task)
    ensures var s' := Apply(s, PopStep(task)); BatchesOn(s', k) + |s'.Queue(k)| <= BatchesOn(s, k) + |s.Queue(k)|
  {
  }

  lemma JoinUsesQueue(s: State, task: nat, k: Key)
    requires Enabled(s, Join(task)) && KeyDrained(s, s.drainers[task].key) && DrainerOwns(s, task)
    ensures var s' := Apply(s, Join(task)); BatchesOn(s', k) + |s'.Queue(k)| <= BatchesOn(s, k) + |s.Queue(k)|
  {
  }

  lemma StepUsesQueue(s: State, step: Step, k: Key)
    requires Inv(s) && Enabled(s, step) && !Adds(step, k)
    ensures var s' := Apply(s, step); BatchesOn(s', k) + |s'.Queue(k)| <= BatchesOn(s, k) + |s.Queue(k)|
  {
    match step
    case PopStep(task) =>
      assert DrainerOwns(s, task) && KeyDrained(s, s.drainers[task].key);
      PopUsesQueue(s, task, k);
    case Join(task) =>
      assert DrainerOwns(s, task) && KeyDrained(s, s.drainers[task].key);
      JoinUsesQueue(s, task, k);
    case Enqueue(r, _) => assert r.key.value != k;
    case Spawn(_) =>
    case _ =>
      OthersKeepQueues(s, step);
      SameQueuesSameKey(s, Apply(s, step), k);
  }

  // Nothing on the key can move.
  ghost predicate Quiet(s: State, k: Key) {
    forall step :: Enabled(s, step) ==> !Concerns(s, step, k)
  }

  lemma UnmappedIsQuiet(s: State, k: Key, step: Step)
    requires Inv(s) && k !in s.queues && Enabled(s, step)
    ensures !Concerns(s, step, k)
  {
    assert KeyDrained(s, k);
    match step
    case Spawn(task) => assert DrainerOwns(s, task);
    case PopStep(task) => assert DrainerOwns(s, task);
    case Join(task) => assert DrainerOwns(s, task);
    case CheckGate(id) => assert EntryPlaced(s, id);
    case FinishBody(id) => assert EntryPlaced(s, id);
    case _ =>
  }

  /** A key comes to rest exactly when it has been removed. */
  lemma QuietIsUnmapped(s: State, k: Key)
    requires Inv(s)
    ensures Quiet(s, k) <==> k !in s.queues
  {
    if k in s.queues {
      var step := KeyCanStep(s, k);
    } else {
      forall step | Enabled(s, step) ensures !Concerns(s, step, k) { UnmappedIsQuiet(s, k, step); }
    }
  }

  /** With no new enqueues on a key, any run takes at most `Work` steps on it, forms at most as many batches as requests
      were queued, and has nothing left to do on the key exactly when the key is gone. */
  lemma {:induction false} DrainingEnds(s: State, steps: seq<Step>, k: Key)
    requires Inv(s) && LegalRun(s, steps) && forall i :: 0 <= i < |steps| ==> !Adds(steps[i], k)
    ensures var later := After(s, steps);
            && StepsOn(s, steps, k) + Work(later, k) <= Work(s, k)
            && BatchesOn(later, k) - BatchesOn(s, k) + |later.Queue(k)| <= |s.Queue(k)|
            && (Quiet(later, k) <==> k !in later.queues)
    decreases |steps|
  {
    if steps == [] {
      QuietIsUnmapped(s, k);
    } else {
      var s' := Apply(s, steps[0]);
      StepKeepsInv(s, steps[0]);
      StepUsesQueue(s, steps[0], k);
      if Concerns(s, steps[0], k) { StepDoesWork(s, steps[0], k); } else { OtherStepsKeepWork(s, steps[0], k); }
      DrainingEnds(s', steps[1..], k);
    }
  }

  /** From every reachable state, whatever the gates, some run removes the key by steps on that key alone. */
  lemma {:induction false} KeyDrains(s: State, k: Key) returns (steps: seq<Step>)
    requires Inv(s)
    ensures LegalRun(s, steps) && |steps| <= Work(s, k) && k !in After(s, steps).queues
    ensures StepsOn(s, steps, k) == |steps| && forall i :: 0 <= i < |steps| ==> !Adds(steps[i], k)
    decreases Work(s, k)
  {
    if k !in s.queues {
      steps := [];
    } else {
      var step := KeyCanStep(s, k);
      StepDoesWork(s, step, k);
      StepKeepsInv(s, step);
      var rest := KeyDrains(Apply(s, step), k);
      steps := [step] + rest;
      assert steps[1..] == rest;
    }
  }
}
