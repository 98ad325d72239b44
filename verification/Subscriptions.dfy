/** The doubly indexed subscriptions of connections to threads, and the one relation they stand for. */
module Subscriptions {

  type ConnectionId = nat
  type ThreadId = string

  // A subscription table: the plain relation, and the connections alive.
  datatype Table = Table(live: set<ConnectionId>, threads: set<ThreadId>, pairs: set<(ThreadId, ConnectionId)>)

  datatype Operation =
    | ConnectionInitialized(c: ConnectionId)
    | EnsureThread(t: ThreadId)
    | Subscribe(t: ThreadId, c: ConnectionId)
    | Unsubscribe(t: ThreadId, c: ConnectionId)
    | RemoveThread(t: ThreadId)
    | RemoveConnection(c: ConnectionId)

  // What each operation means on the relation.
  function Meaning(table: Table, op: Operation): Table {
    match op
    case ConnectionInitialized(c) => table.(live := table.live + {c})
    case EnsureThread(t) => table.(threads := table.threads + {t})
    case Subscribe(t, c) =>
      if c in table.live then table.(threads := table.threads + {t}, pairs := table.pairs + {(t, c)}) else table
    case Unsubscribe(t, c) => table.(pairs := table.pairs - {(t, c)})
    case RemoveThread(t) => table.(threads := table.threads - {t}, pairs := set p | p in table.pairs && p.0 != t)
    case RemoveConnection(c) => table.(live := table.live - {c}, pairs := set p | p in table.pairs && p.1 != c)
  }

  // Threads that lose their last subscriber with the connection.
  function Orphaned(table: Table, c: ConnectionId): set<ThreadId> {
    set p | p in table.pairs && p.1 == c && (forall q :: q in table.pairs && q.0 == p.0 ==> q.1 == c) :: p.0
  }

  function Run(ops: seq<Operation>): Table {
    if ops == [] then Table({}, {}, {}) else Meaning(Run(ops[..|ops| - 1]), ops[|ops| - 1])
  }

  /** In every run of the relation itself, subscribers are live connections of known threads. */
  lemma {:induction false} SubscribersAreLive(ops: seq<Operation>)
    ensures forall p :: p in Run(ops).pairs ==> p.0 in Run(ops).threads && p.1 in Run(ops).live
  {
    if ops != [] { SubscribersAreLive(ops[..|ops| - 1]); }
  }

  datatype ThreadEntry = ThreadEntry(connectionIds: set<ConnectionId>, hasConnections: bool)

  // `update_has_connections`: what the watcher holds afterwards.
  function Refreshed(connectionIds: set<ConnectionId>): ThreadEntry {
    ThreadEntry(connectionIds, connectionIds != {})
  }

  // The relation the index by thread stands for.
  function PairsOf(threads: map<ThreadId, ThreadEntry>): (pairs: set<(ThreadId, ConnectionId)>)
    ensures forall p :: p in pairs <==> p.0 in threads && p.1 in threads[p.0].connectionIds
  {
    set t, c | t in threads && c in threads[t].connectionIds :: (t, c)
  }

  class ThreadStateManager {
    var liveConnections: set<ConnectionId>
    var threads: map<ThreadId, ThreadEntry>
    var threadIdsByConnection: map<ConnectionId, set<ThreadId>>

    // The two indexes agree, none is empty on the connection side, subscribers are live, watchers tell the truth.
    ghost predicate Valid()
      reads this
    {
      && (forall t, c :: Subscribed(t, c) <==> Indexed(t, c))
      && (forall c :: c in threadIdsByConnection ==> threadIdsByConnection[c] != {} && c in liveConnections)
      && (forall t :: t in threads ==> threads[t].hasConnections == (threads[t].connectionIds != {}))
    }

    ghost function View(): Table
      reads this
    {
      Table(liveConnections, threads.Keys, PairsOf(threads))
    }

    // The pair is in the index by thread ...
    ghost predicate Subscribed(t: ThreadId, c: ConnectionId)
      reads this
    {
      t in threads && c in threads[t].connectionIds
    }

    // ... and in the index by connection.
    ghost predicate Indexed(t: ThreadId, c: ConnectionId)
      reads this
    {
      c in threadIdsByConnection && t in threadIdsByConnection[c]
    }

    constructor ()
      ensures Valid() && View() == Run([])
    {
      liveConnections, threads, threadIdsByConnection := {}, map[], map[];
    }

    method ConnectionInitialized(c: ConnectionId)
      requires Valid()
      modifies this`liveConnections
      ensures Valid() && View() == Meaning(old(View()), Operation.ConnectionInitialized(c))
      ensures liveConnections == old(liveConnections) + {c}
    {
      liveConnections := liveConnections + {c};
      assert forall u, d :: Subscribed(u, d) <==> old(Subscribed(u, d));
      assert forall u, d :: Indexed(u, d) <==> old(Indexed(u, d));
    }

    method ThreadState(t: ThreadId)
      requires Valid()
      modifies this`threads
      ensures Valid() && View() == Meaning(old(View()), EnsureThread(t))
      ensures threads.Keys == old(threads.Keys) + {t}
      ensures forall u, d :: Subscribed(u, d) <==> old(Subscribed(u, d))
    {
      if t !in threads {
        threads := threads[t := ThreadEntry({}, false)];
        assert forall u, c :: Subscribed(u, c) <==> old(Subscribed(u, c));
        assert forall u, c :: Indexed(u, c) <==> old(Indexed(u, c));
        assert View().pairs == old(View()).pairs;
      }
    }

    method SubscribedConnectionIds(t: ThreadId) returns (connections: set<ConnectionId>)
      requires Valid()
      ensures connections == set p | p in View().pairs && p.0 == t :: p.1
    {
      connections := if t in threads then threads[t].connectionIds else {};
      assert forall c :: c in connections <==> (t, c) in View().pairs;
    }

    method TryAddConnectionToThread(t: ThreadId, c: ConnectionId) returns (added: bool)
      requires Valid()
      modifies this
      ensures Valid() && View() == Meaning(old(View()), Subscribe(t, c))
      ensures added <==> c in old(liveConnections)
      ensures liveConnections == old(liveConnections)
      ensures threads.Keys == if added then old(threads.Keys) + {t} else old(threads.Keys)
      ensures forall u, d :: Subscribed(u, d) <==> old(Subscribed(u, d)) || (added && u == t && d == c)
    {
      if c !in liveConnections { return false; }
      var ids := if c in threadIdsByConnection then threadIdsByConnection[c] else {};
      threadIdsByConnection := threadIdsByConnection[c := ids + {t}];
      var entry := if t in threads then threads[t] else ThreadEntry({}, false);
      threads := threads[t := Refreshed(entry.connectionIds + {c})];
      assert forall u, d :: Subscribed(u, d) <==> old(Subscribed(u, d)) || (u == t && d == c);
      assert forall u, d :: Indexed(u, d) <==> old(Indexed(u, d)) || (u == t && d == c);
      AddedPair(old(threads), threads, t, c);
      return true;
    }

    method UnsubscribeConnectionFromThread(t: ThreadId, c: ConnectionId) returns (removed: bool)
      requires Valid()
      modifies this
      ensures Valid() && View() == Meaning(old(View()), Unsubscribe(t, c))
      ensures removed <==> old(Subscribed(t, c))
      ensures liveConnections == old(liveConnections) && threads.Keys == old(threads.Keys)
      ensures forall u, d :: Subscribed(u, d) <==> old(Subscribed(u, d)) && !(u == t && d == c)
    {
      assert (t, c) in View().pairs <==> Subscribed(t, c);
      if t !in threads { return false; }
      if c !in threadIdsByConnection || t !in threadIdsByConnection[c] { return false; }
      var ids := threadIdsByConnection[c] - {t};
      assert forall u :: u in ids <==> Indexed(u, c) && u != t;
      threadIdsByConnection := if ids == {} then threadIdsByConnection - {c} else threadIdsByConnection[c := ids];
      threads := threads[t := Refreshed(threads[t].connectionIds - {c})];
      assert forall u, d :: Subscribed(u, d) <==> old(Subscribed(u, d)) && !(u == t && d == c);
      assert forall u, d :: Indexed(u, d) <==> old(Indexed(u, d)) && !(u == t && d == c);
      assert View().pairs == old(View()).pairs - {(t, c)};
      return true;
    }

    method RemoveThreadState(t: ThreadId)
      requires Valid()
      modifies this
      ensures Valid() && View() == Meaning(old(View()), RemoveThread(t))
      ensures liveConnections == old(liveConnections) && threads.Keys == old(threads.Keys) - {t}
      ensures forall u, d :: Subscribed(u, d) <==> old(Subscribed(u, d)) && u != t
    {
      threads := threads - {t};
      threadIdsByConnection :=
        map c | c in threadIdsByConnection && threadIdsByConnection[c] - {t} != {} :: threadIdsByConnection[c] - {t};
      assert forall u, d :: Subscribed(u, d) <==> old(Subscribed(u, d)) && u != t;
      assert forall u, d :: Indexed(u, d) <==> old(Indexed(u, d)) && u != t;
      assert View().pairs == set p | p in old(View()).pairs && p.0 != t;
    }

    // Drops the connection from both indexes and tells which threads it was subscribed to.
    method Detach(c: ConnectionId) returns (threadIds: set<ThreadId>)
      requires Valid()
      modifies this
      ensures Valid() && View() == Meaning(old(View()), Operation.RemoveConnection(c))
      ensures liveConnections == old(liveConnections) - {c}
      ensures forall u, d :: Subscribed(u, d) <==> old(Subscribed(u, d)) && d != c
      ensures forall t :: t in threadIds <==> old(Subscribed(t, c))
      ensures threads.Keys == old(threads).Keys
      ensures forall t :: t in threads ==> threads[t].connectionIds == old(threads)[t].connectionIds - {c}
    {
      assert forall u :: Indexed(u, c) <==> Subscribed(u, c);
      ghost var before := threads;
      liveConnections := liveConnections - {c};
      threadIds := if c in threadIdsByConnection then threadIdsByConnection[c] else {};
      assert forall u :: u in threadIds <==> old(Indexed(u, c));
      threadIdsByConnection := threadIdsByConnection - {c};
      threads := DropSubscriber(threads, threadIds, c);
      DroppedPairs(before, threads, c);
      assert forall u, d :: Subscribed(u, d) <==> old(Subscribed(u, d)) && d != c;
      assert forall u, d :: Indexed(u, d) <==> old(Indexed(u, d)) && d != c;
    }

    // Reports, once each, the threads left without subscribers.
    method RemoveConnection(c: ConnectionId) returns (orphaned: seq<ThreadId>)
      requires Valid()
      modifies this
      ensures Valid() && View() == Meaning(old(View()), Operation.RemoveConnection(c))
      ensures liveConnections == old(liveConnections) - {c} && threads.Keys == old(threads.Keys)
      ensures forall u, d :: Subscribed(u, d) <==> old(Subscribed(u, d)) && d != c
      ensures (set t | t in orphaned) == Orphaned(old(View()), c)
      ensures forall t :: t in orphaned <==> old(Subscribed(t, c)) && forall d :: !Subscribed(t, d)
      ensures forall i, j :: 0 <= i < j < |orphaned| ==> orphaned[i] != orphaned[j]
    {
      ghost var before, table := threads, View();
      assert forall p :: p in table.pairs <==> Subscribed(p.0, p.1);
      var threadIds := Detach(c);
      orphaned := WithoutSubscribers(threads, threadIds);
      forall t | t in threads
        ensures threads[t].connectionIds == {} <==> forall d :: !Subscribed(t, d)
      {
        assert forall d :: Subscribed(t, d) <==> d in threads[t].connectionIds;
      }
      OrphansFound(before, table, c, orphaned);
    }
  }

  lemma AddedPair(before: map<ThreadId, ThreadEntry>, after: map<ThreadId, ThreadEntry>, t: ThreadId, c: ConnectionId)
    requires t in after && after == before[t := after[t]]
    requires after[t].connectionIds == (if t in before then before[t].connectionIds else {}) + {c}
    ensures PairsOf(after) == PairsOf(before) + {(t, c)}
  {
  }

  lemma DroppedPairs(before: map<ThreadId, ThreadEntry>, after: map<ThreadId, ThreadEntry>, c: ConnectionId)
    requires after.Keys == before.Keys
    requires forall t :: t in after ==> after[t].connectionIds == before[t].connectionIds - {c}
    ensures PairsOf(after) == set p | p in PairsOf(before) && p.1 != c
  {
  }

  // Takes the connection out of each listed thread, in an arbitrary order.
  method DropSubscriber(threads: map<ThreadId, ThreadEntry>, ids: set<ThreadId>, c: ConnectionId)
    returns (after: map<ThreadId, ThreadEntry>)
    ensures after == map t | t in threads ::
      if t in ids then Refreshed(threads[t].connectionIds - {c}) else threads[t]
  {
    after := threads;
    var todo := ids;
    while todo != {}
      invariant todo <= ids
      invariant after.Keys == threads.Keys
      invariant forall t :: t in after ==>
        after[t] == if t in ids - todo then Refreshed(threads[t].connectionIds - {c}) else threads[t]
    {
      var t :| t in todo;
      if t in after { after := after[t := Refreshed(after[t].connectionIds - {c})]; }
      todo := todo - {t};
    }
  }

  // Lists, once each, the threads among `ids` that nobody subscribes to.
  method WithoutSubscribers(threads: map<ThreadId, ThreadEntry>, ids: set<ThreadId>) returns (empty: seq<ThreadId>)
    ensures forall t :: t in empty <==> t in ids && t in threads && threads[t].connectionIds == {}
    ensures forall i, j :: 0 <= i < j < |empty| ==> empty[i] != empty[j]
  {
    empty := [];
    var todo := ids;
    while todo != {}
      invariant todo <= ids
      invariant forall t :: t in empty <==> t in ids - todo && t in threads && threads[t].connectionIds == {}
      invariant forall i, j :: 0 <= i < j < |empty| ==> empty[i] != empty[j]
    {
      var t :| t in todo;
      if t in threads && threads[t].connectionIds == {} { empty := empty + [t]; }
      todo := todo - {t};
    }
  }

  lemma OrphansFound(threads: map<ThreadId, ThreadEntry>, table: Table, c: ConnectionId, found: seq<ThreadId>)
    requires forall p :: p in table.pairs <==> p.0 in threads && p.1 in threads[p.0].connectionIds
    requires forall t :: t in found <==>
               t in threads && c in threads[t].connectionIds && threads[t].connectionIds - {c} == {}
    ensures (set t | t in found) == Orphaned(table, c)
  {
    forall t ensures t in found <==> t in Orphaned(table, c) {
      if t in found {
        forall q | q in table.pairs && q.0 == t ensures q.1 == c { assert q.1 !in threads[t].connectionIds - {c}; }
        assert (t, c) in table.pairs && (t, c).0 == t;
      }
      if t in Orphaned(table, c) {
        var p :| p in table.pairs && p.1 == c && p.0 == t && forall q :: q in table.pairs && q.0 == p.0 ==> q.1 == c;
        assert p == (t, c);
        forall d | d in threads[t].connectionIds ensures d == c { assert (t, d) in table.pairs; }
      }
    }
  }

  /** Any sequence of operations on the two indexes is that sequence on the one relation. */
  method RunOperations(ops: seq<Operation>) returns (m: ThreadStateManager)
    ensures fresh(m) && m.Valid() && m.View() == Run(ops)
  {
    m := new ThreadStateManager();
    for n := 0 to |ops|
      invariant fresh(m) && m.Valid() && m.View() == Run(ops[..n])
    {
      assert ops[..n + 1][..n] == ops[..n];
      match ops[n] {
        case ConnectionInitialized(c) => m.ConnectionInitialized(c);
        case EnsureThread(t) => m.ThreadState(t);
        case Subscribe(t, c) => var _ := m.TryAddConnectionToThread(t, c);
        case Unsubscribe(t, c) => var _ := m.UnsubscribeConnectionFromThread(t, c);
        case RemoveThread(t) => m.RemoveThreadState(t);
        case RemoveConnection(c) => var _ := m.RemoveConnection(c);
      }
    }
    assert ops[..|ops|] == ops;
  }
}
