/** Path edits of the user configuration and the edit log that is persisted for them. */
module ConfigEdits {
  import opened Prelude
  import opened Toml
  import opened Merge
  import KeyPath

  datatype Strategy = Replace | Upsert

  datatype EditError = EmptyKeyPath | NonTableParent | BadKeyPath(reason: KeyPath.KeyPathError)

  // `apply_merge` with a value: parents that are not tables are replaced by empty ones on the way.
  function SetAt(root: Value, path: Path, value: Value, strategy: Strategy): Result<Value, EditError>
    decreases |path|
  {
    if path == [] then Err(EmptyKeyPath)
    else if |path| == 1 then
      if !root.Table? then Err(NonTableParent)
      else if strategy.Upsert? && value.Table? && path[0] in root.entries && root.entries[path[0]].Table? then
        Ok(Table(root.entries[path[0] := Merged(root.entries[path[0]], value)]))
      else Ok(Table(root.entries[path[0] := value]))
    else
      var table := if root.Table? then root.entries else map[];
      var child := if path[0] in table then table[path[0]] else Table(map[]);
      match SetAt(child, path[1..], value, strategy)
      case Err(e) => Err(e)
      case Ok(c) => Ok(Table(table[path[0] := c]))
  }

  // `clear_path`: stops silently at anything that is not a table.
  function ClearAt(root: Value, path: Path): Result<Value, EditError>
    decreases |path|
  {
    if path == [] then Err(EmptyKeyPath)
    else if !root.Table? || path[0] !in root.entries then Ok(root)
    else if |path| == 1 then Ok(Table(root.entries - {path[0]}))
    else
      match ClearAt(root.entries[path[0]], path[1..])
      case Err(e) => Err(e)
      case Ok(c) => Ok(Table(root.entries[path[0] := c]))
  }

  function Applied(root: Value, path: Path, value: Option<Value>, strategy: Strategy): Result<Value, EditError> {
    match value
    case None => ClearAt(root, path)
    case Some(v) => SetAt(root, path, v, strategy)
  }

  // ---------- what the edits do, path by path ----------

  // Every value strictly above the end of the path is there and is a table.
  ghost predicate TablesLead(root: Value, path: Path) {
    forall n :: 0 <= n < |path| ==> IsTableAt(root, path[..n])
  }

  lemma TablesLeadStep(root: Value, path: Path)
    requires path != []
    ensures TablesLead(root, path) <==>
            root.Table? &&
            (|path| == 1 || (path[0] in root.entries && TablesLead(root.entries[path[0]], path[1..])))
  {
    assert path[..0] == [];
    if |path| > 1 && root.Table? {
      var rest := path[1..];
      forall n | 0 < n < |path| ensures path[..n][0] == path[0] && path[..n][1..] == rest[..n - 1] {}
      assert TablesLead(root, path) ==> IsTableAt(root, path[..1]);
      if path[0] in root.entries {
        assert forall n :: 0 < n < |path| ==>
                 (IsTableAt(root, path[..n]) <==> IsTableAt(root.entries[path[0]], rest[..n - 1]));
        forall m | 0 <= m < |rest| && TablesLead(root, path) ensures IsTableAt(root.entries[path[0]], rest[..m]) {
          assert IsTableAt(root, path[..m + 1]);
        }
      } else {
        assert path[..1] == [path[0]];
      }
    }
  }

  // The child that a set descends into.
  function ChildFor(root: Value, key: string): Value {
    if root.Table? && key in root.entries then root.entries[key] else Table(map[])
  }

  lemma SetStep(root: Value, path: Path, value: Value, strategy: Strategy)
    requires |path| > 1 && SetAt(root, path, value, strategy).Ok?
    ensures var inner := SetAt(ChildFor(root, path[0]), path[1..], value, strategy);
            inner.Ok? &&
            SetAt(root, path, value, strategy).value ==
            Table((if root.Table? then root.entries else map[])[path[0] := inner.value])
  {
  }

  // What a set leaves at its path: the two tables merged for an upsert of one over another, else the value itself.
  ghost function Written(root: Value, path: Path, value: Value, strategy: Strategy): Value {
    if strategy.Upsert? && value.Table? && TablesLead(root, path) && IsTableAt(root, path)
    then Merged(Lookup(root, path).value, value) else value
  }

  lemma {:induction false} SetWrites(root: Value, path: Path, value: Value, strategy: Strategy)
    requires SetAt(root, path, value, strategy).Ok?
    ensures Lookup(SetAt(root, path, value, strategy).value, path) == Some(Written(root, path, value, strategy))
    decreases |path|
  {
    var after := SetAt(root, path, value, strategy).value;
    TablesLeadStep(root, path);
    if |path| == 1 {
      assert path[1..] == [];
      assert Lookup(root, path) == if path[0] in root.entries then Some(root.entries[path[0]]) else None;
    } else {
      var child, rest := ChildFor(root, path[0]), path[1..];
      SetStep(root, path, value, strategy);
      SetWrites(child, rest, value, strategy);
      EmptyLeadsNowhere(rest);
    }
  }

  lemma EmptyLeadsNowhere(path: Path)
    requires path != []
    ensures Lookup(Table(map[]), path).None?
  {
  }

  /**
   * The path law of a set, below its path. A replace, or an upsert that does not meet two tables, puts the value there
   * whole. An upsert over a table puts every scalar and array of the new table, keeps tables tables, and leaves what
   * the new table is silent on as it was, unless it cuts it off.
   */
  lemma SetPathLaw(root: Value, path: Path, value: Value, strategy: Strategy, rest: Path)
    requires SetAt(root, path, value, strategy).Ok?
    ensures var after := SetAt(root, path, value, strategy).value;
            var given, found := Lookup(value, rest), Lookup(after, path + rest);
            if strategy.Replace? || !value.Table? || !TablesLead(root, path) || !IsTableAt(root, path) then
              found == given
            else if given.None? then
              found == if CutsOff(Lookup(root, path).value, value, rest) then None else Lookup(root, path + rest)
            else if given.value.Table? then found.Some? && found.value.Table?
            else found == given
  {
    var after := SetAt(root, path, value, strategy).value;
    SetWrites(root, path, value, strategy);
    LookupConcat(after, path, rest);
    if strategy.Upsert? && value.Table? && TablesLead(root, path) && IsTableAt(root, path) {
      var was := Lookup(root, path).value;
      LookupConcat(root, path, rest);
      if Lookup(value, rest).Some? {
        OverlayWins(was, value, rest);
      } else if Lookup(was, rest).Some? {
        SilentOverlay(was, value, rest);
      } else {
        OverlaySilent(was, value, rest);
      }
    }
  }

  // After a set only tables lead to its path.
  lemma {:induction false} SetLeads(root: Value, path: Path, value: Value, strategy: Strategy)
    requires SetAt(root, path, value, strategy).Ok?
    ensures TablesLead(SetAt(root, path, value, strategy).value, path)
    decreases |path|
  {
    TablesLeadStep(SetAt(root, path, value, strategy).value, path);
    if |path| > 1 {
      SetStep(root, path, value, strategy);
      SetLeads(ChildFor(root, path[0]), path[1..], value, strategy);
    }
  }

  // The paths part at the n-th segment.
  predicate PartAt(path: Path, other: Path, n: nat) {
    n < |path| && n < |other| && path[..n] == other[..n] && path[n] != other[n]
  }

  lemma PartAtStep(path: Path, other: Path, n: nat)
    requires PartAt(path, other, n) && n > 0
    ensures path[0] == other[0] && PartAt(path[1..], other[1..], n - 1)
    ensures path[..n + 1][1..] == path[1..][..n] && path[..n + 1][0] == path[0]
  {
    assert path[..n][0] == path[0] && other[..n][0] == other[0];
    assert path[1..][..n - 1] == path[..n][1..] && other[1..][..n - 1] == other[..n][1..];
  }

  /** A set touches no path that parts from its own where only tables lead; where a parent was not a table, it and all
      that was below it are gone. */
  lemma {:induction false} SetElsewhere(
    root: Value, path: Path, value: Value, strategy: Strategy, other: Path, n: nat)
    requires SetAt(root, path, value, strategy).Ok? && PartAt(path, other, n)
    ensures Lookup(SetAt(root, path, value, strategy).value, other) ==
            if TablesLead(root, path[..n + 1]) then Lookup(root, other) else None
    decreases |path|
  {
    TablesLeadStep(root, path[..n + 1]);
    if n == 0 {
      assert path[..1] == [path[0]];
      if |path| > 1 { SetStep(root, path, value, strategy); }
    } else {
      PartAtStep(path, other, n);
      SetStep(root, path, value, strategy);
      var child := ChildFor(root, path[0]);
      SetElsewhere(child, path[1..], value, strategy, other[1..], n - 1);
      if !(root.Table? && path[0] in root.entries) { EmptyLeadsNowhere(other[1..]); }
    }
  }

  /** A set fails exactly on the empty path, or where tables lead to its parent and that is not a table. */
  lemma {:induction false} SetFailsExactly(root: Value, path: Path, value: Value, strategy: Strategy)
    ensures SetAt(root, path, value, strategy) == Err(EmptyKeyPath) <==> path == []
    ensures path != [] ==>
      var parent := path[..|path| - 1];
      SetAt(root, path, value, strategy) == Err(NonTableParent) <==>
      TablesLead(root, parent) && Lookup(root, parent).Some? && !IsTableAt(root, parent)
    ensures SetAt(root, path, value, strategy).Err? ==>
      SetAt(root, path, value, strategy).error in {EmptyKeyPath, NonTableParent}
    decreases |path|
  {
    if |path| > 1 {
      var child, parent := ChildFor(root, path[0]), path[..|path| - 1];
      SetFailsExactly(child, path[1..], value, strategy);
      TablesLeadStep(root, parent);
      assert parent[1..] == path[1..][..|path[1..]| - 1] && parent[0] == path[0];
    }
  }

  lemma {:induction false} ClearStep(root: Value, path: Path)
    requires |path| > 1 && root.Table? && path[0] in root.entries
    ensures ClearAt(root.entries[path[0]], path[1..]).Ok?
    ensures ClearAt(root, path) == Ok(Table(root.entries[path[0] := ClearAt(root.entries[path[0]], path[1..]).value]))
  {
    ClearSucceeds(root.entries[path[0]], path[1..]);
  }

  lemma {:induction false} ClearSucceeds(root: Value, path: Path)
    ensures ClearAt(root, path) == Err(EmptyKeyPath) <==> path == []
    ensures path != [] ==> ClearAt(root, path).Ok?
    decreases |path|
  {
    if |path| > 1 && root.Table? && path[0] in root.entries { ClearSucceeds(root.entries[path[0]], path[1..]); }
  }

  /** Clearing removes exactly what is at the path or below it, if only tables lead there, and changes nothing else: no
      path that does not lead to the one cleared is touched. */
  lemma {:induction false} ClearPathLaw(root: Value, path: Path, other: Path)
    requires path != [] && !(other < path)
    ensures ClearAt(root, path).Ok?
    ensures Lookup(ClearAt(root, path).value, other) ==
            if path <= other && TablesLead(root, path) then None else Lookup(root, other)
    decreases |path|
  {
    ClearSucceeds(root, path);
    TablesLeadStep(root, path);
    if root.Table? && path[0] in root.entries && other != [] {
      if |path| == 1 {
        assert path == [path[0]];
      } else {
        ClearStep(root, path);
        if other[0] == path[0] {
          assert path == [path[0]] + path[1..] && other == [other[0]] + other[1..];
          ClearPathLaw(root.entries[path[0]], path[1..], other[1..]);
        }
      }
    } else if path <= other && TablesLead(root, path) {
      assert other[0] == path[0];
    }
  }

  // The values on the way to a cleared path stay tables, or whatever they were.
  lemma {:induction false} ClearKeepsParents(root: Value, path: Path, n: nat)
    requires n < |path|
    ensures ClearAt(root, path).Ok?
    ensures var after := ClearAt(root, path).value;
            && (IsTableAt(after, path[..n]) <==> IsTableAt(root, path[..n]))
            && (!IsTableAt(root, path[..n]) ==> Lookup(after, path[..n]) == Lookup(root, path[..n]))
    decreases |path|
  {
    ClearSucceeds(root, path);
    if n > 0 && root.Table? && path[0] in root.entries {
      ClearStep(root, path);
      assert path[..n][1..] == path[1..][..n - 1] && path[..n][0] == path[0];
      ClearKeepsParents(root.entries[path[0]], path[1..], n - 1);
    }
  }

  // ---------- the loops ----------

  // One table on the way down and the key taken from it.
  datatype Frame = Frame(table: map<string, Value>, key: string)

  function Rebuilt(frames: seq<Frame>, inner: Result<Value, EditError>): Result<Value, EditError> {
    if frames == [] || inner.Err? then inner
    else
      var last := frames[|frames| - 1];
      Rebuilt(frames[..|frames| - 1], Ok(Table(last.table[last.key := inner.value])))
  }

  method Rebuild(frames: seq<Frame>, inner: Value) returns (root: Value)
    ensures Rebuilt(frames, Ok(inner)) == Ok(root)
  {
    root := inner;
    var n := |frames|;
    assert frames[..n] == frames;
    while n > 0
      invariant 0 <= n <= |frames|
      invariant Rebuilt(frames, Ok(inner)) == Rebuilt(frames[..n], Ok(root))
    {
      assert frames[..n][..n - 1] == frames[..n - 1];
      n := n - 1;
      root := Table(frames[n].table[frames[n].key := root]);
    }
  }

  // The descent of `apply_merge`: the tables passed are kept and put back together around the edited leaf.
  method ApplySet(root: Value, path: Path, value: Value, strategy: Strategy) returns (r: Result<Value, EditError>)
    ensures r == SetAt(root, path, value, strategy)
  {
    if path == [] { return Err(EmptyKeyPath); }
    var current := root;
    var frames: seq<Frame> := [];
    assert path[0..] == path;
    for n := 0 to |path| - 1
      invariant SetAt(root, path, value, strategy) == Rebuilt(frames, SetAt(current, path[n..], value, strategy))
    {
      var table := if current.Table? then current.entries else map[];
      var frame := Frame(table, path[n]);
      var before := frames;
      assert path[n..][1..] == path[n + 1..];
      assert (before + [frame])[..|before|] == before;
      current := if path[n] in table then table[path[n]] else Table(map[]);
      frames := frames + [frame];
    }
    var last := path[|path| - 1];
    assert path[|path| - 1..] == [last];
    if !current.Table? { return Err(NonTableParent); }
    var leaf := value;
    if strategy.Upsert? && value.Table? && last in current.entries && current.entries[last].Table? {
      leaf := MergeTomlValues(current.entries[last], value);
    }
    var edited := Rebuild(frames, Table(current.entries[last := leaf]));
    return Ok(edited);
  }

  method ApplyClear(root: Value, path: Path) returns (r: Result<Value, EditError>)
    ensures r == ClearAt(root, path)
  {
    if path == [] { return Err(EmptyKeyPath); }
    var current := root;
    var frames: seq<Frame> := [];
    assert path[0..] == path;
    for n := 0 to |path| - 1
      invariant ClearAt(root, path) == Rebuilt(frames, ClearAt(current, path[n..]))
      invariant Rebuilt(frames, Ok(current)) == Ok(root)
    {
      if !current.Table? || path[n] !in current.entries { return Ok(root); }
      var frame := Frame(current.entries, path[n]);
      assert path[n..][1..] == path[n + 1..];
      assert (frames + [frame])[..|frames|] == frames;
      assert current.entries[path[n] := current.entries[path[n]]] == current.entries;
      current := current.entries[path[n]];
      frames := frames + [frame];
    }
    var last := path[|path| - 1];
    assert path[|path| - 1..] == [last];
    if !current.Table? || last !in current.entries { return Ok(root); }
    var edited := Rebuild(frames, Table(current.entries - {last}));
    return Ok(edited);
  }

  // ---------- the edit log ----------

  datatype ConfigEdit = SetPath(segments: Path, value: Value) | ClearPath(segments: Path)

  // The entry written when the value at the path changed.
  function LogEntry(before: Value, after: Value, path: Path): seq<ConfigEdit> {
    if Lookup(before, path) == Lookup(after, path) then []
    else match Lookup(after, path)
      case Some(v) => [SetPath(path, v)]
      case None => [ClearPath(path)]
  }

  function ReplayOne(root: Value, edit: ConfigEdit): Result<Value, EditError> {
    match edit
    case SetPath(path, v) => SetAt(root, path, v, Replace)
    case ClearPath(path) => ClearAt(root, path)
  }

  function Replay(root: Value, log: seq<ConfigEdit>): Result<Value, EditError> {
    if log == [] then Ok(root)
    else match Replay(root, log[..|log| - 1])
      case Err(e) => Err(e)
      case Ok(v) => ReplayOne(v, log[|log| - 1])
  }

  // Some value strictly above the end of the path is an array.
  predicate CrossesArray(v: Value, path: Path) {
    path != [] && (v.Array? || (Child(v, path[0]).Some? && CrossesArray(Child(v, path[0]).value, path[1..])))
  }

  // A set that goes unlogged although it turns an array into a table.
  predicate Masked(root: Value, path: Path, value: Option<Value>) {
    value.Some? && CrossesArray(root, path) && Lookup(root, path) == value
  }

  // After a set the leaf is there, and setting the leaf found by plain replacement repeats the edit.
  lemma {:induction false} SetIsReplaceOfResult(root: Value, path: Path, value: Value, strategy: Strategy)
    requires SetAt(root, path, value, strategy).Ok?
    ensures var after := SetAt(root, path, value, strategy).value;
            Lookup(after, path).Some? && SetAt(root, path, Lookup(after, path).value, Replace) == Ok(after)
    decreases |path|
  {
    var after := SetAt(root, path, value, strategy).value;
    if |path| == 1 {
      assert path[1..] == [];
      assert Lookup(after, path) == Lookup(after.entries[path[0]], []);
    } else {
      var table := if root.Table? then root.entries else map[];
      var child := if path[0] in table then table[path[0]] else Table(map[]);
      SetIsReplaceOfResult(child, path[1..], value, strategy);
    }
  }

  lemma {:induction false} UnloggedSetChangesNothing(root: Value, path: Path, value: Value, strategy: Strategy)
    requires SetAt(root, path, value, strategy).Ok? && !CrossesArray(root, path)
    requires Lookup(SetAt(root, path, value, strategy).value, path) == Lookup(root, path)
    ensures SetAt(root, path, value, strategy) == Ok(root)
    decreases |path|
  {
    var after := SetAt(root, path, value, strategy).value;
    SetIsReplaceOfResult(root, path, value, strategy);
    if |path| == 1 {
      assert path[1..] == [];
      assert Lookup(after, path) == Lookup(after.entries[path[0]], []);
      assert after.entries == root.entries;
    } else {
      assert root.Table? && path[0] in root.entries;
      UnloggedSetChangesNothing(root.entries[path[0]], path[1..], value, strategy);
      assert after.entries == root.entries;
    }
  }

  // On a fresh tree, or past an array, the value given is the value found.
  lemma {:induction false} SetPastArray(root: Value, path: Path, value: Value, strategy: Strategy)
    requires SetAt(root, path, value, strategy).Ok?
    requires CrossesArray(root, path) || root == Table(map[])
    ensures Lookup(SetAt(root, path, value, strategy).value, path) == Some(value)
    ensures CrossesArray(root, path) ==> SetAt(root, path, value, strategy) != Ok(root)
    decreases |path|
  {
    var after := SetAt(root, path, value, strategy).value;
    if |path| == 1 {
      assert path[1..] == [];
      assert Lookup(after, path) == Lookup(after.entries[path[0]], []);
    } else {
      var table := if root.Table? then root.entries else map[];
      var child := if path[0] in table then table[path[0]] else Table(map[]);
      SetPastArray(child, path[1..], value, strategy);
      assert after.entries[path[0]] == SetAt(child, path[1..], value, strategy).value;
    }
  }

  lemma {:induction false} ClearIsFaithful(root: Value, path: Path)
    requires ClearAt(root, path).Ok?
    ensures var after := ClearAt(root, path).value;
            if Lookup(after, path) == Lookup(root, path) then after == root else Lookup(after, path) == None
    decreases |path|
  {
    var after := ClearAt(root, path).value;
    if root.Table? && path[0] in root.entries {
      if |path| == 1 {
        assert path[1..] == [];
        assert Lookup(root, path) == Lookup(root.entries[path[0]], []);
      } else {
        ClearIsFaithful(root.entries[path[0]], path[1..]);
        if Lookup(after, path) == Lookup(root, path) { assert after.entries == root.entries; }
      }
    }
  }

  lemma ReplaySingle(root: Value, edit: ConfigEdit)
    ensures Replay(root, [edit]) == ReplayOne(root, edit)
  {
    assert [edit][..0] == [];
    assert Replay(root, []) == Ok(root);
  }

  /** One edit: replaying what was logged for it reproduces it exactly when the edit is not masked. */
  lemma EditReplays(root: Value, path: Path, value: Option<Value>, strategy: Strategy)
    requires Applied(root, path, value, strategy).Ok?
    ensures var after := Applied(root, path, value, strategy).value;
            Replay(root, LogEntry(root, after, path)) == Ok(after) <==> !Masked(root, path, value)
  {
    var after := Applied(root, path, value, strategy).value;
    var log := LogEntry(root, after, path);
    if log != [] { ReplaySingle(root, log[0]); }
    if value.None? {
      ClearIsFaithful(root, path);
    } else {
      SetIsReplaceOfResult(root, path, value.value, strategy);
      if CrossesArray(root, path) {
        SetPastArray(root, path, value.value, strategy);
      } else if log == [] {
        UnloggedSetChangesNothing(root, path, value.value, strategy);
      }
    }
  }

  datatype Edit = Edit(keyPath: string, value: Option<Value>, strategy: Strategy)

  datatype Outcome = Outcome(config: Value, log: seq<ConfigEdit>, segments: seq<Path>)

  function Step(so: Outcome, edit: Edit): Result<Outcome, EditError> {
    match KeyPath.Parsed(edit.keyPath)
    case Err(e) => Err(BadKeyPath(e))
    case Ok(path) =>
      match Applied(so.config, path, edit.value, edit.strategy)
      case Err(e) => Err(e)
      case Ok(after) => Ok(Outcome(after, so.log + LogEntry(so.config, after, path), so.segments + [path]))
  }

  function Run(config: Value, edits: seq<Edit>): Result<Outcome, EditError> {
    if edits == [] then Ok(Outcome(config, [], []))
    else match Run(config, edits[..|edits| - 1])
      case Err(e) => Err(e)
      case Ok(so) => Step(so, edits[|edits| - 1])
  }

  lemma {:induction false} RunErrorSticks(config: Value, edits: seq<Edit>, n: nat)
    requires n <= |edits| && Run(config, edits[..n]).Err?
    ensures Run(config, edits) == Run(config, edits[..n])
    decreases |edits|
  {
    if n < |edits| {
      assert edits[..|edits| - 1][..n] == edits[..n];
      RunErrorSticks(config, edits[..|edits| - 1], n);
    } else {
      assert edits[..n] == edits;
    }
  }

  // The edit loop of `apply_edits`, before validation and persistence.
  method ApplyEdits(config: Value, edits: seq<Edit>) returns (r: Result<Outcome, EditError>)
    ensures r == Run(config, edits)
  {
    var so := Outcome(config, [], []);
    for n := 0 to |edits|
      invariant Run(config, edits[..n]) == Ok(so)
    {
      var edit := edits[n];
      assert edits[..n + 1][..n] == edits[..n];
      assert Run(config, edits[..n + 1]) == Step(so, edit);
      var parsed := KeyPath.ParseKeyPath(edit.keyPath);
      if parsed.Err? { RunErrorSticks(config, edits, n + 1); return Err(BadKeyPath(parsed.error)); }
      var path := parsed.value;
      var original := ValueAtPath(so.config, path);
      var applied;
      if edit.value.None? {
        applied := ApplyClear(so.config, path);
      } else {
        applied := ApplySet(so.config, path, edit.value.value, edit.strategy);
      }
      if applied.Err? { RunErrorSticks(config, edits, n + 1); return Err(applied.error); }
      var updated := ValueAtPath(applied.value, path);
      var log := so.log;
      assert log + [] == log;
      if original != updated {
        log := log + [if updated.Some? then SetPath(path, updated.value) else ClearPath(path)];
      }
      so := Outcome(applied.value, log, so.segments + [path]);
    }
    assert edits[..|edits|] == edits;
    return Ok(so);
  }

  // The paths reported for a run are those its edits name, one each.
  lemma {:induction false} RunReportsPaths(config: Value, edits: seq<Edit>, i: nat)
    requires Run(config, edits).Ok? && i < |edits|
    ensures var segments := Run(config, edits).value.segments;
            |segments| == |edits| && KeyPath.Parsed(edits[i].keyPath) == Ok(segments[i])
    decreases |edits|
  {
    var n := |edits| - 1;
    RunPrefixOk(config, edits, n);
    if n > 0 { RunReportsPaths(config, edits[..n], if i < n then i else 0); }
  }

  // No edit of the run is masked in the configuration it meets.
  predicate NoneMasked(config: Value, edits: seq<Edit>) {
    edits == [] ||
    var n := |edits| - 1;
    && NoneMasked(config, edits[..n])
    && (Run(config, edits[..n]).Ok? && KeyPath.Parsed(edits[n].keyPath).Ok? ==>
          !Masked(Run(config, edits[..n]).value.config, KeyPath.Parsed(edits[n].keyPath).value, edits[n].value))
  }

  lemma {:induction false} ReplayConcat(root: Value, a: seq<ConfigEdit>, b: seq<ConfigEdit>)
    ensures Replay(root, a + b) == match Replay(root, a) { case Err(e) => Err(e) case Ok(v) => Replay(v, b) }
    decreases |b|
  {
    if b == [] {
      assert a + b == a;
    } else {
      assert (a + b)[..|a + b| - 1] == a + b[..|b| - 1];
      ReplayConcat(root, a, b[..|b| - 1]);
    }
  }

  // Replaying only the logged edits of the run on the original configuration gives the final one.
  predicate Faithful(config: Value, edits: seq<Edit>) {
    var run := Run(config, edits);
    run.Ok? && Replay(config, run.value.log) == Ok(run.value.config)
  }

  lemma RunPrefixOk(config: Value, edits: seq<Edit>, n: nat)
    requires n <= |edits| && Run(config, edits).Ok?
    ensures Run(config, edits[..n]).Ok?
  {
    if Run(config, edits[..n]).Err? { RunErrorSticks(config, edits, n); }
  }

  // After a faithful run, one more edit keeps it faithful exactly when that edit is not masked.
  lemma LastEditReplays(config: Value, edits: seq<Edit>)
    requires edits != [] && Run(config, edits).Ok? && Faithful(config, edits[..|edits| - 1])
    ensures Faithful(config, edits) <==>
            !Masked(Run(config, edits[..|edits| - 1]).value.config, KeyPath.Parsed(edits[|edits| - 1].keyPath).value,
                    edits[|edits| - 1].value)
  {
    var n := |edits| - 1;
    var before, last := Run(config, edits[..n]).value, edits[n];
    var path := KeyPath.Parsed(last.keyPath).value;
    var after := Run(config, edits).value;
    EditReplays(before.config, path, last.value, last.strategy);
    ReplayConcat(config, before.log, LogEntry(before.config, after.config, path));
  }

  // Faithful before the first edit and after each one.
  predicate AlwaysFaithful(config: Value, edits: seq<Edit>) {
    Faithful(config, edits) && (edits != [] ==> AlwaysFaithful(config, edits[..|edits| - 1]))
  }

  /** The edit log is faithful after every edit of a successful run exactly when no edit of the run is masked. */
  lemma {:induction false} LogReplaysRun(config: Value, edits: seq<Edit>)
    requires Run(config, edits).Ok?
    ensures NoneMasked(config, edits) <==> AlwaysFaithful(config, edits)
    decreases |edits|
  {
    if edits != [] {
      var init := edits[..|edits| - 1];
      RunPrefixOk(config, edits, |init|);
      LogReplaysRun(config, init);
      if AlwaysFaithful(config, init) { LastEditReplays(config, edits); }
    }
  }

  // No edit path of the run crosses an array of the configuration it meets.
  predicate ArrayFree(config: Value, edits: seq<Edit>) {
    edits == [] ||
    var n := |edits| - 1;
    && ArrayFree(config, edits[..n])
    && (Run(config, edits[..n]).Ok? && KeyPath.Parsed(edits[n].keyPath).Ok? ==>
          !CrossesArray(Run(config, edits[..n]).value.config, KeyPath.Parsed(edits[n].keyPath).value))
  }

  lemma {:induction false} ArrayFreeUnmasked(config: Value, edits: seq<Edit>)
    requires ArrayFree(config, edits)
    ensures NoneMasked(config, edits)
    decreases |edits|
  {
    if edits != [] { ArrayFreeUnmasked(config, edits[..|edits| - 1]); }
  }

  lemma ArrayFreeRunsReplay(config: Value, edits: seq<Edit>)
    requires Run(config, edits).Ok? && ArrayFree(config, edits)
    ensures Replay(config, Run(config, edits).value.log) == Ok(Run(config, edits).value.config)
  {
    ArrayFreeUnmasked(config, edits);
    LogReplaysRun(config, edits);
  }

  // Writing the value already found inside an array element rewrites the array and logs nothing.
  lemma MaskedEditExample()
    ensures var item := Table(map["b" := Leaf(Integer(1))]);
            var root := Table(map["a" := Array([item])]);
            var path := ["a", "0", "b"];
            && SetAt(root, path, Leaf(Integer(1)), Replace).Ok?
            && LogEntry(root, SetAt(root, path, Leaf(Integer(1)), Replace).value, path) == []
            && SetAt(root, path, Leaf(Integer(1)), Replace).value != root
  {
    var item := Table(map["b" := Leaf(Integer(1))]);
    var root := Table(map["a" := Array([item])]);
    var path := ["a", "0", "b"];
    assert path[1..] == ["0", "b"] && path[1..][1..] == ["b"] && ["b"][1..] == [];
    ParseDecimal(0);
    assert Decimal(0) == "0";
    assert Child(Array([item]), "0") == Some(item);
    assert Lookup(root, path) == Lookup(Array([item]), ["0", "b"]) == Lookup(item, ["b"])
        == Lookup(Leaf(Integer(1)), []) == Some(Leaf(Integer(1)));
    assert CrossesArray(Array([item]), ["0", "b"]) && CrossesArray(root, path);
    assert SetAt(Table(map[]), ["b"], Leaf(Integer(1)), Replace).Ok?;
    assert SetAt(Array([item]), ["0", "b"], Leaf(Integer(1)), Replace).Ok?;
    assert SetAt(root, path, Leaf(Integer(1)), Replace).Ok?;
    SetPastArray(root, path, Leaf(Integer(1)), Replace);
  }

  // A later edit of the same place can repair an unlogged one: set past the array, it leaves the same configuration
  // whether or not the array was replaced before.
  lemma RepairedEditExample()
    ensures var root := Table(map["a" := Array([Table(map["b" := Leaf(Integer(1))])])]);
            var replaced := Table(map["a" := Table(map["0" := Table(map["b" := Leaf(Integer(1))])])]);
            var path := ["a", "0", "b"];
            && SetAt(root, path, Leaf(Integer(1)), Replace) == Ok(replaced)
            && SetAt(replaced, path, Leaf(Integer(2)), Replace).Ok?
            && SetAt(replaced, path, Leaf(Integer(2)), Replace) == SetAt(root, path, Leaf(Integer(2)), Replace)
  {
    var inner := Table(map["b" := Leaf(Integer(1))]);
    var root := Table(map["a" := Array([inner])]);
    var path := ["a", "0", "b"];
    assert path[1..] == ["0", "b"] && path[1..][1..] == ["b"];
    SetPastArrayValue(root, inner, 1);
    SetPastArrayValue(root, inner, 2);
    var leaf := Leaf(Integer(2));
    SetOnly("b", Leaf(Integer(1)), leaf);
    assert SetAt(inner, ["b"], leaf, Replace) == Ok(Table(map["b" := leaf]));
    SetOnly("0", inner, Table(map["b" := leaf]));
    assert SetAt(Table(map["0" := inner]), ["0", "b"], leaf, Replace) == Ok(Table(map["0" := Table(map["b" := leaf])]));
    SetOnly("a", Table(map["0" := inner]), Table(map["0" := Table(map["b" := leaf])]));
    assert SetAt(Nested(1), path, leaf, Replace) == Ok(Nested(2));
  }

  lemma SetOnly(key: string, was: Value, becomes: Value)
    ensures map[key := was][key := becomes] == map[key := becomes] == map[][key := becomes]
  {
  }

  lemma SetPastArrayValue(root: Value, inner: Value, i: int)
    requires root == Table(map["a" := Array([inner])])
    ensures SetAt(root, ["a", "0", "b"], Leaf(Integer(i)), Replace) == Ok(Nested(i))
  {
    var path, leaf := ["a", "0", "b"], Leaf(Integer(i));
    assert path[1..] == ["0", "b"] && path[1..][1..] == ["b"];
    assert SetAt(Table(map[]), ["b"], leaf, Replace) == Ok(Table(map["b" := leaf]));
    assert SetAt(Array([inner]), ["0", "b"], leaf, Replace) == Ok(Table(map["0" := Table(map["b" := leaf])]));
    SetOnly("a", Array([inner]), Table(map["0" := Table(map["b" := leaf])]));
  }

  function Nested(i: int): Value {
    Table(map["a" := Table(map["0" := Table(map["b" := Leaf(Integer(i))])])])
  }
}
