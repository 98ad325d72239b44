/** Thread status derived from runtime facts, and its cached copies: watchers, the running count, notifications. */
module ThreadStatus {
  import opened Prelude

  datatype Flag = WaitingOnUserInput

  datatype Status = NotLoaded | Idle | SystemError | Active(flags: seq<Flag>)

  datatype Facts = Facts(isLoaded: bool, running: bool, pendingUserInput: nat, hasSystemError: bool)

  const DEFAULT_FACTS: Facts := Facts(false, false, 0, false)

  function LoadedThreadStatus(facts: Facts): Status {
    if !facts.isLoaded then NotLoaded
    else
      var flags := if facts.pendingUserInput > 0 then [WaitingOnUserInput] else [];
      if facts.running || flags != [] then Active(flags)
      else if facts.hasSystemError then SystemError
      else Idle
  }

  type Runtime = map<string, Facts>

  function StatusFor(runtime: Runtime, t: string): Option<Status> {
    if t in runtime then Some(LoadedThreadStatus(runtime[t])) else None
  }

  function LoadedStatus(runtime: Runtime, t: string): Status {
    if t in runtime then LoadedThreadStatus(runtime[t]) else NotLoaded
  }

  // A watch channel: its value and how many receivers are subscribed.
  datatype Watcher = Watcher(value: Status, receivers: nat)

  datatype Sent = Sent(thread: string, status: Status)

  datatype Update = TurnStarted | TurnEnded | Shutdown | Failed

  function Updated(facts: Facts, update: Update): Facts {
    match update
    case TurnStarted => facts.(isLoaded := true, running := true, hasSystemError := false)
    case TurnEnded => facts.(running := false, pendingUserInput := 0)
    case Shutdown => facts.(running := false, pendingUserInput := 0, isLoaded := false)
    case Failed => facts.(running := false, pendingUserInput := 0, hasSystemError := true)
  }

  // What a client that keeps the last notification per thread believes.
  function LastNotified(sent: seq<Sent>, t: string): Status {
    if sent == [] then NotLoaded
    else if sent[|sent| - 1].thread == t then sent[|sent| - 1].status
    else LastNotified(sent[..|sent| - 1], t)
  }

  lemma LastNotifiedSnoc(sent: seq<Sent>, n: Sent, t: string)
    ensures LastNotified(sent + [n], t) == if n.thread == t then n.status else LastNotified(sent, t)
  {
    assert (sent + [n])[..|sent|] == sent;
  }

  // Facts every operation keeps: a running thread is loaded, and no user input is ever pending.
  predicate Sound(runtime: Runtime) {
    forall t :: t in runtime ==>
      (runtime[t].running ==> runtime[t].isLoaded) && runtime[t].pendingUserInput == 0
  }

  function RunningThreads(runtime: Runtime): set<string> {
    set t | t in runtime && runtime[t].running
  }

  function ActiveThreads(runtime: Runtime): set<string> {
    set t | t in runtime && LoadedThreadStatus(runtime[t]).Active?
  }

  /** On sound facts the running threads are exactly those whose status is active, and the flags are empty. */
  lemma RunningIsActive(runtime: Runtime)
    requires Sound(runtime)
    ensures RunningThreads(runtime) == ActiveThreads(runtime)
    ensures forall t :: t in runtime && LoadedThreadStatus(runtime[t]).Active? ==>
              LoadedThreadStatus(runtime[t]) == Active([])
  {}

  // What refreshing one watcher leaves: the new value, or nothing if nobody listens.
  function Refreshed(watchers: map<string, Watcher>, t: string, status: Status): map<string, Watcher> {
    if t !in watchers then watchers
    else if watchers[t].receivers == 0 then watchers - {t}
    else watchers[t := watchers[t].(value := status)]
  }

  // The notification due when a tracked thread's status moved away from `previous`.
  function Due(runtime: Runtime, t: string, previous: Option<Status>): seq<Sent> {
    if StatusFor(runtime, t).None? || previous == StatusFor(runtime, t) then [] else [Sent(t, LoadedStatus(runtime, t))]
  }

  // A client that keeps the last notification knows the thread's status.
  predicate Believed(sent: seq<Sent>, runtime: Runtime, t: string) {
    LastNotified(sent, t) == LoadedStatus(runtime, t)
  }

  ghost predicate SameElsewhere(before: Runtime, after: Runtime, t: string) {
    forall u :: u != t ==> LoadedStatus(after, u) == LoadedStatus(before, u)
  }

  // Sending what is due keeps every belief true and changes none about other threads.
  lemma DueKeepsBeliefs(sent: seq<Sent>, before: Runtime, after: Runtime, t: string, u: string)
    requires SameElsewhere(before, after, t) && t in after
    ensures var sent' := sent + Due(after, t, StatusFor(before, t));
            && (Believed(sent, before, u) ==> Believed(sent', after, u))
            && (u != t ==> (Believed(sent', after, u) <==> Believed(sent, before, u)))
  {
    var due := Due(after, t, StatusFor(before, t));
    if due == [] {
      assert sent + due == sent;
    } else {
      LastNotifiedSnoc(sent, due[0], u);
    }
  }

  // Without a notification a belief about the thread stays true exactly when its status did not move.
  lemma SilenceKeepsBeliefs(sent: seq<Sent>, before: Runtime, after: Runtime, t: string, u: string)
    requires SameElsewhere(before, after, t)
    ensures u != t ==> (Believed(sent, after, u) <==> Believed(sent, before, u))
    ensures Believed(sent, before, t) ==>
              (Believed(sent, after, t) <==> LoadedStatus(after, t) == LoadedStatus(before, t))
  {
  }

  function Loaded(runtime: Runtime, t: string): Runtime {
    runtime[t := (if t in runtime then runtime[t] else DEFAULT_FACTS).(isLoaded := true)]
  }

  function Noted(runtime: Runtime, t: string, update: Update): Runtime {
    runtime[t := Updated((if t in runtime then runtime[t] else DEFAULT_FACTS).(isLoaded := true), update)]
  }

  // Loading a thread keeps the facts sound, and moves its status exactly when it was not loaded.
  lemma LoadingMoves(runtime: Runtime, t: string)
    requires Sound(runtime)
    ensures Sound(Loaded(runtime, t)) && SameElsewhere(runtime, Loaded(runtime, t), t)
    ensures LoadedStatus(Loaded(runtime, t), t) == LoadedStatus(runtime, t) <==> !LoadedStatus(runtime, t).NotLoaded?
  {
  }

  predicate WatchersTrue(watchers: map<string, Watcher>, runtime: Runtime) {
    forall t :: t in watchers ==> watchers[t].value == LoadedStatus(runtime, t)
  }

  lemma RefreshedTrue(watchers: map<string, Watcher>, before: Runtime, after: Runtime, t: string)
    requires WatchersTrue(watchers, before) && SameElsewhere(before, after, t)
    ensures WatchersTrue(Refreshed(watchers, t, LoadedStatus(after, t)), after)
  {
  }

  // What a send on the running-turn channel leaves stored: nothing new while it has no receiver.
  function Stored(count: nat, receivers: nat, runtime: Runtime): nat {
    if receivers > 0 then |ActiveThreads(runtime)| else count
  }

  class ThreadWatchManager {
    const outgoing: bool             // whether there is anyone to notify
    var runtime: Runtime
    var watchers: map<string, Watcher>
    var runningTurnCount: nat        // the value stored in the running-turn channel
    var countReceivers: nat
    var sent: seq<Sent>

    // Facts are sound and every watcher holds the recomputed status.
    ghost predicate Valid()
      reads this
    {
      && Sound(runtime)
      && WatchersTrue(watchers, runtime)
    }

    // The last notification tells the thread's current status.
    ghost predicate Coherent(t: string)
      reads this
    {
      Believed(sent, runtime, t)
    }

    // The receiver made with the running-turn channel is dropped at once.
    constructor (outgoing: bool)
      ensures Valid() && this.outgoing == outgoing
      ensures runtime == map[] && watchers == map[] && runningTurnCount == countReceivers == 0 && sent == []
      ensures forall t :: Coherent(t)
    {
      this.outgoing := outgoing;
      runtime, watchers, runningTurnCount, countReceivers, sent := map[], map[], 0, 0, [];
    }

    // `update_status_watcher`: refresh the watcher, and drop it if nobody listens.
    method UpdateStatusWatcher(t: string, status: Status)
      modifies this`watchers
      ensures watchers == Refreshed(old(watchers), t, status)
      ensures t in watchers <==> t in old(watchers) && old(watchers)[t].receivers > 0
      ensures t in watchers ==> watchers[t] == Watcher(status, old(watchers)[t].receivers)
      ensures watchers - {t} == old(watchers) - {t}
    {
      if t !in watchers { return; }
      if watchers[t].value != status {
        watchers := watchers[t := watchers[t].(value := status)];
      }
      if watchers[t].receivers == 0 { watchers := watchers - {t}; }
    }

    // The published half of `mutate_and_publish`.
    method Publish(notification: Option<Sent>)
      requires Sound(runtime)
      modifies this`runningTurnCount, this`sent
      ensures runningTurnCount == Stored(old(runningTurnCount), countReceivers, runtime)
      ensures sent == old(sent) + if outgoing && notification.Some? then [notification.value] else []
    {
      RunningIsActive(runtime);
      if countReceivers > 0 { runningTurnCount := |RunningThreads(runtime)|; }
      if outgoing && notification.Some? { sent := sent + [notification.value]; }
    }

    method StatusChangedNotification(t: string, previous: Option<Status>) returns (n: Option<Sent>)
      ensures Due(runtime, t, previous) == if n.Some? then [n.value] else []
      ensures n.Some? <==> t in runtime && previous != Some(LoadedThreadStatus(runtime[t]))
      ensures n.Some? ==> n.value == Sent(t, LoadedThreadStatus(runtime[t]))
    {
      var status := StatusFor(runtime, t);
      if status.None? { return None; }
      if previous == status { return None; }
      return Some(Sent(t, status.value));
    }

    // `upsert_thread` and `upsert_thread_silently`.
    method UpsertThread(t: string, emit: bool)
      requires Valid()
      modifies this`runtime, this`watchers, this`runningTurnCount, this`sent
      ensures Valid()
      ensures runtime == Loaded(old(runtime), t)
      ensures watchers == Refreshed(old(watchers), t, LoadedStatus(runtime, t))
      ensures runningTurnCount == Stored(old(runningTurnCount), countReceivers, runtime)
      ensures sent == old(sent) + if outgoing && emit then Due(runtime, t, old(StatusFor(runtime, t))) else []
      ensures forall u :: u != t ==> (old(Coherent(u)) <==> Coherent(u))
      ensures outgoing && emit && old(Coherent(t)) ==> Coherent(t)
      ensures !(outgoing && emit) && old(Coherent(t)) ==> (Coherent(t) <==> !old(LoadedStatus(runtime, t)).NotLoaded?)
    {
      var previous := StatusFor(runtime, t);
      ghost var before, was := runtime, sent;
      LoadingMoves(before, t);
      RefreshedTrue(watchers, before, Loaded(before, t), t);
      var facts := if t in runtime then runtime[t] else DEFAULT_FACTS;
      runtime := runtime[t := facts.(isLoaded := true)];
      UpdateStatusWatcher(t, LoadedStatus(runtime, t));
      var notification := None;
      if emit { notification := StatusChangedNotification(t, previous); }
      Publish(notification);
      assert was + [] == was;
      if outgoing && emit {
        forall u { DueKeepsBeliefs(was, before, Loaded(before, t), t, u); }
      } else {
        forall u { SilenceKeepsBeliefs(was, before, Loaded(before, t), t, u); }
      }
    }

    method RemoveThread(t: string)
      requires Valid()
      modifies this`runtime, this`watchers, this`runningTurnCount, this`sent
      ensures Valid()
      ensures runtime == old(runtime) - {t} && watchers == Refreshed(old(watchers), t, NotLoaded)
      ensures runningTurnCount == Stored(old(runningTurnCount), countReceivers, runtime)
      ensures sent == old(sent) +
        if outgoing && old(LoadedStatus(runtime, t)) != NotLoaded then [Sent(t, NotLoaded)] else []
      ensures forall u :: (outgoing || u != t) && old(Coherent(u)) ==> Coherent(u)
    {
      var previous := StatusFor(runtime, t);
      runtime := runtime - {t};
      UpdateStatusWatcher(t, NotLoaded);
      var notification := if previous.Some? && previous != Some(NotLoaded) then Some(Sent(t, NotLoaded)) else None;
      ghost var before := sent;
      Publish(notification);
      NotifiedAfter(before, if outgoing then notification else None);
    }

    // `update_runtime_for_thread` with one of the `note_*` closures.
    method Note(t: string, update: Update)
      requires Valid()
      modifies this`runtime, this`watchers, this`runningTurnCount, this`sent
      ensures Valid()
      ensures runtime == Noted(old(runtime), t, update)
      ensures watchers == Refreshed(old(watchers), t, LoadedStatus(runtime, t))
      ensures runningTurnCount == Stored(old(runningTurnCount), countReceivers, runtime)
      ensures sent == old(sent) + if outgoing then Due(runtime, t, old(StatusFor(runtime, t))) else []
      ensures forall u :: (outgoing || u != t) && old(Coherent(u)) ==> Coherent(u)
    {
      var previous := StatusFor(runtime, t);
      var facts := if t in runtime then runtime[t] else DEFAULT_FACTS;
      ghost var before, was := runtime, sent;
      runtime := runtime[t := Updated(facts.(isLoaded := true), update)];
      RefreshedTrue(watchers, before, runtime, t);
      UpdateStatusWatcher(t, LoadedStatus(runtime, t));
      var notification := StatusChangedNotification(t, previous);
      Publish(notification);
      if outgoing {
        forall u { DueKeepsBeliefs(was, before, runtime, t, u); }
      } else {
        assert was + [] == was;
        forall u { SilenceKeepsBeliefs(was, before, runtime, t, u); }
      }
    }

    method Subscribe(t: string) returns (status: Status)
      requires Valid()
      modifies this`watchers
      ensures Valid() && status == LoadedStatus(runtime, t)
      ensures watchers ==
        old(watchers)[t := Watcher(status, 1 + if t in old(watchers) then old(watchers)[t].receivers else 0)]
    {
      var current := LoadedStatus(runtime, t);
      var watcher := if t in watchers then watchers[t] else Watcher(current, 0);
      watchers := watchers[t := watcher.(receivers := watcher.receivers + 1)];
      return watchers[t].value;
    }

    // A receiver is dropped by its holder.
    method Unsubscribe(t: string)
      requires Valid() && t in watchers && watchers[t].receivers > 0
      modifies this`watchers
      ensures Valid()
      ensures watchers == old(watchers)[t := old(watchers)[t].(receivers := old(watchers)[t].receivers - 1)]
    {
      watchers := watchers[t := watchers[t].(receivers := watchers[t].receivers - 1)];
    }

    // `subscribe_running_turn_count`: the new receiver sees what is stored, fresh or not.
    method SubscribeRunningTurnCount() returns (seen: nat)
      modifies this`countReceivers
      ensures countReceivers == old(countReceivers) + 1 && seen == runningTurnCount
    {
      countReceivers := countReceivers + 1;
      return runningTurnCount;
    }

    method DropCountReceiver()
      requires countReceivers > 0
      modifies this`countReceivers
      ensures countReceivers == old(countReceivers) - 1
    {
      countReceivers := countReceivers - 1;
    }
  }

  lemma NotifiedAfter(before: seq<Sent>, n: Option<Sent>)
    ensures forall t :: LastNotified(before + (if n.Some? then [n.value] else []), t) ==
                        if n.Some? && n.value.thread == t then n.value.status else LastNotified(before, t)
  {
    if n.Some? {
      forall t { LastNotifiedSnoc(before, n.value, t); }
    } else {
      assert before + [] == before;
    }
  }

  // ---------- whole runs ----------

  datatype Operation =
    | Upsert(t: string)
    | SilentUpsert(t: string)
    | Remove(t: string)
    | NoteUpdate(t: string, update: Update)
    | Watch(t: string)
    | Unwatch(t: string)
    | WatchCount
    | UnwatchCount

  function FactsStep(before: Runtime, op: Operation): Runtime {
    match op
    case Upsert(t) => Loaded(before, t)
    case SilentUpsert(t) => Loaded(before, t)
    case Remove(t) => before - {t}
    case NoteUpdate(t, update) => Noted(before, t, update)
    case _ => before
  }

  function FactsAfter(ops: seq<Operation>): Runtime {
    if ops == [] then map[] else FactsStep(FactsAfter(ops[..|ops| - 1]), ops[|ops| - 1])
  }

  predicate Publishes(op: Operation) { op.Upsert? || op.SilentUpsert? || op.Remove? || op.NoteUpdate? }

  function ReceiversStep(before: nat, op: Operation): nat {
    match op
    case WatchCount => before + 1
    case UnwatchCount => if before > 0 then before - 1 else 0
    case _ => before
  }

  // How many receivers the running-turn channel has.
  function ReceiversAfter(ops: seq<Operation>): nat {
    if ops == [] then 0 else ReceiversStep(ReceiversAfter(ops[..|ops| - 1]), ops[|ops| - 1])
  }

  // The length of the run up to its last publish that a receiver heard.
  function LastHeard(ops: seq<Operation>): (n: nat)
    ensures n <= |ops|
  {
    if ops == [] then 0
    else if Publishes(ops[|ops| - 1]) && ReceiversAfter(ops[..|ops| - 1]) > 0 then |ops|
    else LastHeard(ops[..|ops| - 1])
  }

  function ActiveCount(ops: seq<Operation>): nat { |ActiveThreads(FactsAfter(ops))| }

  // What the running-turn channel holds: the count as of the last publish that was heard.
  function HeardCount(ops: seq<Operation>): nat { ActiveCount(ops[..LastHeard(ops)]) }

  lemma HeardCountSnoc(ops: seq<Operation>)
    requires ops != []
    ensures var init, last := ops[..|ops| - 1], ops[|ops| - 1];
            HeardCount(ops) == if Publishes(last) then Stored(HeardCount(init), ReceiversAfter(init), FactsAfter(ops))
                               else HeardCount(init)
  {
    var init := ops[..|ops| - 1];
    assert init[..LastHeard(init)] == ops[..LastHeard(init)];
    assert ops[..|ops|] == ops;
  }

  method Perform(m: ThreadWatchManager, op: Operation)
    requires m.Valid()
    modifies m
    ensures m.Valid() && m.runtime == FactsStep(old(m.runtime), op)
    ensures m.countReceivers == ReceiversStep(old(m.countReceivers), op)
    ensures m.runningTurnCount ==
      if Publishes(op) then Stored(old(m.runningTurnCount), m.countReceivers, m.runtime) else old(m.runningTurnCount)
    ensures m.outgoing ==> forall t :: op != SilentUpsert(t) && old(m.Coherent(t)) ==> m.Coherent(t)
  {
    match op {
      case Upsert(t) => m.UpsertThread(t, true);
      case SilentUpsert(t) => m.UpsertThread(t, false);
      case Remove(t) => m.RemoveThread(t);
      case NoteUpdate(t, update) => m.Note(t, update);
      case Watch(t) => var _ := m.Subscribe(t);
      case Unwatch(t) => if t in m.watchers && m.watchers[t].receivers > 0 { m.Unsubscribe(t); }
      case WatchCount => var _ := m.SubscribeRunningTurnCount();
      case UnwatchCount => if m.countReceivers > 0 { m.DropCountReceiver(); }
    }
  }

  /** In every run facts are sound, watchers hold the recomputed status, the stored count is the one of the last publish
      that a receiver heard, and with someone to notify the last notification of each thread that was not upserted
      silently is its current status. */
  method RunOperations(outgoing: bool, ops: seq<Operation>) returns (m: ThreadWatchManager)
    ensures fresh(m) && m.outgoing == outgoing && m.Valid() && m.runtime == FactsAfter(ops)
    ensures m.runningTurnCount == HeardCount(ops) && m.countReceivers == ReceiversAfter(ops)
    ensures outgoing ==> forall t :: SilentUpsert(t) !in ops ==> m.Coherent(t)
  {
    m := new ThreadWatchManager(outgoing);
    for n := 0 to |ops|
      invariant fresh(m) && m.outgoing == outgoing && m.Valid() && m.runtime == FactsAfter(ops[..n])
      invariant m.runningTurnCount == HeardCount(ops[..n]) && m.countReceivers == ReceiversAfter(ops[..n])
      invariant outgoing ==> forall t :: SilentUpsert(t) !in ops ==> m.Coherent(t)
    {
      assert ops[..n + 1][..n] == ops[..n];
      HeardCountSnoc(ops[..n + 1]);
      Perform(m, ops[n]);
      assert ops[n] in ops;
    }
    assert ops[..|ops|] == ops;
  }

  // ---------- when the stored count is current ----------

  // Whether a turn of the thread runs, read off the operations: the last one that says so was a start.
  function TurnRuns(ops: seq<Operation>, t: string): bool {
    if ops == [] then false
    else
      match ops[|ops| - 1]
      case NoteUpdate(u, update) => if u == t then update.TurnStarted? else TurnRuns(ops[..|ops| - 1], t)
      case Remove(u) => u != t && TurnRuns(ops[..|ops| - 1], t)
      case _ => TurnRuns(ops[..|ops| - 1], t)
  }

  // The operation starts a turn of a thread that has none running, or ends or removes the thread of a running one.
  predicate Moves(before: seq<Operation>, op: Operation) {
    match op
    case NoteUpdate(t, update) => update.TurnStarted? != TurnRuns(before, t)
    case Remove(t) => TurnRuns(before, t)
    case _ => false
  }

  lemma {:induction false} FactsAfterSound(ops: seq<Operation>)
    ensures Sound(FactsAfter(ops))
  {
    if ops != [] { FactsAfterSound(ops[..|ops| - 1]); }
  }

  lemma RunningStep(before: Runtime, op: Operation)
    ensures RunningThreads(FactsStep(before, op)) ==
            match op
            case NoteUpdate(t, update) =>
              if update.TurnStarted? then RunningThreads(before) + {t} else RunningThreads(before) - {t}
            case Remove(t) => RunningThreads(before) - {t}
            case _ => RunningThreads(before)
  {
  }

  lemma {:induction false} TurnRunsIsRunning(ops: seq<Operation>, t: string)
    ensures TurnRuns(ops, t) <==> t in RunningThreads(FactsAfter(ops))
  {
    if ops != [] {
      var init := ops[..|ops| - 1];
      TurnRunsIsRunning(init, t);
      RunningStep(FactsAfter(init), ops[|ops| - 1]);
    }
  }

  // Whether the thread is loaded: the last operation on it was neither its removal nor a shutdown.
  function IsLoadedBy(ops: seq<Operation>, t: string): bool {
    if ops == [] then false
    else
      match ops[|ops| - 1]
      case Upsert(u) => u == t || IsLoadedBy(ops[..|ops| - 1], t)
      case SilentUpsert(u) => u == t || IsLoadedBy(ops[..|ops| - 1], t)
      case NoteUpdate(u, update) => if u == t then !update.Shutdown? else IsLoadedBy(ops[..|ops| - 1], t)
      case Remove(u) => u != t && IsLoadedBy(ops[..|ops| - 1], t)
      case _ => IsLoadedBy(ops[..|ops| - 1], t)
  }

  // Whether the thread failed since its last start or removal.
  function HasFailed(ops: seq<Operation>, t: string): bool {
    if ops == [] then false
    else
      match ops[|ops| - 1]
      case NoteUpdate(u, update) =>
        if u == t && update.Failed? then true
        else if u == t && update.TurnStarted? then false
        else HasFailed(ops[..|ops| - 1], t)
      case Remove(u) => u != t && HasFailed(ops[..|ops| - 1], t)
      case _ => HasFailed(ops[..|ops| - 1], t)
  }

  // The facts of a thread, read off the operations.
  predicate FactsRead(ops: seq<Operation>, t: string) {
    var runtime := FactsAfter(ops);
    && (t in runtime ==>
          && runtime[t].isLoaded == IsLoadedBy(ops, t) && runtime[t].running == TurnRuns(ops, t)
          && runtime[t].hasSystemError == HasFailed(ops, t) && runtime[t].pendingUserInput == 0)
    && (t !in runtime ==> !IsLoadedBy(ops, t) && !TurnRuns(ops, t) && !HasFailed(ops, t))
  }

  lemma {:induction false} FactsReadOff(ops: seq<Operation>, t: string)
    ensures FactsRead(ops, t)
  {
    if ops != [] { FactsReadOff(ops[..|ops| - 1], t); }
  }

  /** The status of every thread after every run: not loaded unless its last operation loads it; active, without flags,
      while a turn runs; else in error if it failed since its last start; else idle. */
  lemma StatusExactly(ops: seq<Operation>, t: string)
    ensures LoadedStatus(FactsAfter(ops), t) ==
            if !IsLoadedBy(ops, t) then NotLoaded
            else if TurnRuns(ops, t) then Active([])
            else if HasFailed(ops, t) then SystemError
            else Idle
  {
    FactsReadOff(ops, t);
  }

  lemma OneMoreOrLess(s: set<string>, t: string)
    ensures |s + {t}| == |s| + (if t in s then 0 else 1)
    ensures |s - {t}| == |s| - (if t in s then 1 else 0)
  {
    if t in s { assert s + {t} == s; } else { assert s - {t} == s; }
  }

  // By how much an operation changes the number of active threads.
  function Change(before: seq<Operation>, op: Operation): int {
    if !Moves(before, op) then 0 else if op.NoteUpdate? && op.update.TurnStarted? then 1 else -1
  }

  lemma MovesChangeCount(ops: seq<Operation>)
    requires ops != []
    ensures var init, last := ops[..|ops| - 1], ops[|ops| - 1];
            ActiveCount(ops) == ActiveCount(init) + Change(init, last)
  {
    var init, last := ops[..|ops| - 1], ops[|ops| - 1];
    FactsAfterSound(init);
    FactsAfterSound(ops);
    RunningIsActive(FactsAfter(init));
    RunningIsActive(FactsAfter(ops));
    RunningStep(FactsAfter(init), last);
    if last.NoteUpdate? || last.Remove? {
      TurnRunsIsRunning(init, last.t);
      OneMoreOrLess(RunningThreads(FactsAfter(init)), last.t);
    }
  }

  // Starts less ends among the operations from the n-th on.
  function Balance(ops: seq<Operation>, n: nat): int
    requires n <= |ops|
    decreases |ops|
  {
    if n == |ops| then 0
    else
      var init, last := ops[..|ops| - 1], ops[|ops| - 1];
      Balance(init, n) + Change(init, last)
  }

  lemma {:induction false} BalanceIsChange(ops: seq<Operation>, n: nat)
    requires n <= |ops|
    ensures ActiveCount(ops) == ActiveCount(ops[..n]) + Balance(ops, n)
    decreases |ops|
  {
    if n == |ops| {
      assert ops[..n] == ops;
    } else {
      var init := ops[..|ops| - 1];
      assert init[..n] == ops[..n];
      BalanceIsChange(init, n);
      MovesChangeCount(ops);
    }
  }

  /** At the end of a run the stored count is the number of active threads exactly when, since the last publish that a
      receiver heard, as many turns started as ended. */
  lemma CountCurrentAtEnd(ops: seq<Operation>)
    ensures HeardCount(ops) == ActiveCount(ops) <==> Balance(ops, LastHeard(ops)) == 0
  {
    BalanceIsChange(ops, LastHeard(ops));
  }

  // The stored count is the current one, now and after every earlier operation.
  predicate AlwaysCurrent(ops: seq<Operation>) {
    HeardCount(ops) == ActiveCount(ops) && (ops != [] ==> AlwaysCurrent(ops[..|ops| - 1]))
  }

  // Every operation that changes the number of active threads has a receiver to hear it.
  predicate MovesHeard(ops: seq<Operation>) {
    ops == [] ||
    var init, last := ops[..|ops| - 1], ops[|ops| - 1];
    MovesHeard(init) && (Moves(init, last) ==> ReceiversAfter(init) > 0)
  }

  /** The stored count is the number of active threads after each operation of a run exactly when every operation that
      changes this number comes while the running-turn channel has a receiver. */
  lemma {:induction false} CountCurrentExactly(ops: seq<Operation>)
    ensures AlwaysCurrent(ops) <==> MovesHeard(ops)
  {
    if ops != [] {
      CountCurrentExactly(ops[..|ops| - 1]);
      HeardCountSnoc(ops);
      MovesChangeCount(ops);
    }
  }

  // A count receiver that is held from before the first publish.
  predicate HeldThroughout(ops: seq<Operation>) {
    ops == [] ||
    var init, last := ops[..|ops| - 1], ops[|ops| - 1];
    HeldThroughout(init) && (Publishes(last) ==> ReceiversAfter(init) > 0)
  }

  lemma HeldCountIsCurrent(ops: seq<Operation>)
    requires HeldThroughout(ops)
    ensures AlwaysCurrent(ops)
  {
    HeldHearsMoves(ops);
    CountCurrentExactly(ops);
  }

  lemma {:induction false} HeldHearsMoves(ops: seq<Operation>)
    requires HeldThroughout(ops)
    ensures MovesHeard(ops)
  {
    if ops != [] { HeldHearsMoves(ops[..|ops| - 1]); }
  }

  // ---------- inputs at which the promises fail ----------

  // A turn starts before anyone watches the count; the first receiver then reads zero.
  method StaleCountExample(t: string) returns (m: ThreadWatchManager, seen: nat)
    ensures fresh(m) && m.Valid() && seen == 0 && |ActiveThreads(m.runtime)| == 1
  {
    m := new ThreadWatchManager(true);
    m.Note(t, TurnStarted);
    assert ActiveThreads(m.runtime) == {t};
    seen := m.SubscribeRunningTurnCount();
  }

  // A thread loaded silently is believed not loaded.
  method SilentUpsertExample(t: string) returns (m: ThreadWatchManager)
    ensures fresh(m) && m.outgoing && m.Valid() && !m.Coherent(t)
  {
    m := new ThreadWatchManager(true);
    m.UpsertThread(t, false);
  }
}
