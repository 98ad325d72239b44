/** The layered configuration stack: ordering, user-layer replacement and the effective value. */
module Layers {
  import opened Prelude
  import opened Toml
  import opened Merge

  type FilePath = seq<string>

  datatype Source =
    | Mdm(domain: string, key: string)
    | System(file: FilePath)
    | User(file: FilePath)
    | Project(dotCodexFolder: FilePath)
    | SessionFlags

  function Precedence(source: Source): int {
    match source
    case Mdm(_, _) => 0
    case System(_) => 10
    case User(_) => 20
    case Project(_) => 25
    case SessionFlags => 30
  }

  datatype Metadata = Metadata(name: Source, version: string)

  datatype Layer = Layer(
    name: Source, config: Value, rawToml: Option<string>, version: string, disabledReason: Option<string>)
  {
    predicate Enabled() { disabledReason.None? }
    predicate IsUser() { name.User? }
    function Meta(): Metadata { Metadata(name, version) }
  }

  datatype Stack = Stack(
    layers: seq<Layer>, userLayerIndex: Option<nat>, startupWarnings: Option<seq<string>>)

  datatype OrderingError = NotSorted | NoParentDirectory | NotNested

  predicate Sorted(layers: seq<Layer>) {
    forall i, j :: 0 <= i < j < |layers| ==> Precedence(layers[i].name) <= Precedence(layers[j].name)
  }

  // Index of the last user layer.
  function LastUser(layers: seq<Layer>): Option<nat> {
    if layers == [] then None
    else if layers[|layers| - 1].IsUser() then Some(|layers| - 1)
    else LastUser(layers[..|layers| - 1])
  }

  lemma {:induction false} LastUserExactly(layers: seq<Layer>, i: nat)
    ensures LastUser(layers) == Some(i) <==>
            i < |layers| && layers[i].name.User? && forall j :: i < j < |layers| ==> !layers[j].name.User?
    ensures LastUser(layers) == None <==> forall j :: 0 <= j < |layers| ==> !layers[j].name.User?
  {
    if layers != [] { LastUserExactly(layers[..|layers| - 1], i); }
  }

  // Managed settings come lowest, then the system's, the user's, the project's and the session's.
  lemma SourcesInOrder(domain: string, key: string, file: FilePath)
    ensures Precedence(Mdm(domain, key)) < Precedence(System(file)) < Precedence(User(file))
    ensures Precedence(User(file)) < Precedence(Project(file)) < Precedence(SessionFlags)
    ensures forall other :: Precedence(User(other)) == Precedence(User(file))
    ensures forall other :: Precedence(Project(other)) == Precedence(Project(file))
  {
  }

  predicate IsUserLayer(layer: Layer) { layer.IsUser() }
  predicate IsOtherLayer(layer: Layer) { !layer.IsUser() }
  predicate IsProjectLayer(layer: Layer) { layer.name.Project? }

  function Users(layers: seq<Layer>): seq<Layer> { Filter(layers, IsUserLayer) }
  function NonUsers(layers: seq<Layer>): seq<Layer> { Filter(layers, IsOtherLayer) }
  function Projects(layers: seq<Layer>): seq<Layer> { Filter(layers, IsProjectLayer) }

  // A project folder may follow another when it differs and lies under the other's parent.
  predicate Follows(previous: FilePath, current: FilePath) {
    previous != [] && previous != current && previous[..|previous| - 1] <= current
  }

  predicate Chain(folders: seq<FilePath>) {
    |folders| < 2 ||
    (Follows(folders[|folders| - 2], folders[|folders| - 1]) && Chain(folders[..|folders| - 1]))
  }

  function Folder(layer: Layer): FilePath {
    if layer.name.Project? then layer.name.dotCodexFolder else []
  }

  function Folders(layers: seq<Layer>): seq<FilePath> {
    var ps := Projects(layers);
    seq(|ps|, i requires 0 <= i < |ps| => Folder(ps[i]))
  }

  // The project layers run from the root towards the working directory.
  predicate Nested(layers: seq<Layer>) { Chain(Folders(layers)) }

  // What `ConfigLayerStack::new` establishes.
  predicate Valid(stack: Stack) {
    Sorted(stack.layers) && Nested(stack.layers) && stack.userLayerIndex == LastUser(stack.layers)
  }

  lemma NestedByNonUsers(a: seq<Layer>, b: seq<Layer>)
    requires NonUsers(a) == NonUsers(b)
    ensures Nested(a) == Nested(b)
  {
    FilterTwice(a, IsOtherLayer, IsProjectLayer);
    FilterTwice(b, IsOtherLayer, IsProjectLayer);
  }

  lemma {:induction false} AdjacentSorted(layers: seq<Layer>)
    requires forall i :: 0 < i < |layers| ==> Precedence(layers[i - 1].name) <= Precedence(layers[i].name)
    ensures Sorted(layers)
  {
    if layers != [] {
      var n := |layers| - 1;
      AdjacentSorted(layers[..n]);
      forall i, j | 0 <= i < j < |layers|
        ensures Precedence(layers[i].name) <= Precedence(layers[j].name)
      {
        assert layers[..n][i] == layers[i];
        if j < n { assert layers[..n][j] == layers[j]; }
        else if i < n - 1 { assert layers[..n][n - 1] == layers[n - 1]; }
      }
    }
  }

  lemma {:induction false} ChainPrefix(a: seq<FilePath>, b: seq<FilePath>)
    requires Chain(a + b)
    ensures Chain(a)
  {
    if b == [] {
      assert a + b == a;
    } else {
      assert (a + b)[..|a + b| - 1] == a + b[..|b| - 1];
      ChainPrefix(a, b[..|b| - 1]);
    }
  }

  lemma NestedPrefix(layers: seq<Layer>, n: nat)
    requires n <= |layers| && Nested(layers)
    ensures Nested(layers[..n])
  {
    assert layers == layers[..n] + layers[n..];
    FilterConcat(layers[..n], layers[n..], IsProjectLayer);
    assert Folders(layers) == Folders(layers[..n]) + Folders(layers[n..]);
    ChainPrefix(Folders(layers[..n]), Folders(layers[n..]));
  }

  function LastFolder(layers: seq<Layer>): Option<FilePath> {
    var seen := Folders(layers);
    if seen == [] then None else Some(seen[|seen| - 1])
  }

  lemma NestedSnoc(layers: seq<Layer>, i: nat)
    requires i < |layers|
    ensures !layers[i].name.Project? ==>
      Nested(layers[..i + 1]) == Nested(layers[..i]) && LastFolder(layers[..i + 1]) == LastFolder(layers[..i])
    ensures layers[i].name.Project? ==>
      var current := layers[i].name.dotCodexFolder;
      var last := LastFolder(layers[..i]);
      && LastFolder(layers[..i + 1]) == Some(current)
      && (Nested(layers[..i + 1]) <==> Nested(layers[..i]) && (last.Some? ==> Follows(last.value, current)))
  {
    FilterSnoc(layers, i, IsProjectLayer);
    var seen := Folders(layers[..i]);
    if layers[i].name.Project? {
      var current := layers[i].name.dotCodexFolder;
      assert Folders(layers[..i + 1]) == seen + [current];
      assert (seen + [current])[..|seen|] == seen;
    } else {
      assert Folders(layers[..i + 1]) == seen;
    }
  }

  // Two project layers with no other between them.
  predicate NextProject(layers: seq<Layer>, i: nat, j: nat) {
    && i < j < |layers| && layers[i].name.Project? && layers[j].name.Project?
    && forall m :: i < m < j ==> !layers[m].name.Project?
  }

  // The later folder differs from the earlier one and lies under the earlier one's parent directory.
  predicate RunsOn(layers: seq<Layer>, i: nat, j: nat)
    requires NextProject(layers, i, j)
  {
    var previous, current := layers[i].name.dotCodexFolder, layers[j].name.dotCodexFolder;
    && |previous| > 0 && current != previous
    && |previous| - 1 <= |current| && current[..|previous| - 1] == previous[..|previous| - 1]
  }

  // The index of the last project layer below `n`, or minus one.
  lemma {:induction false} LastProject(layers: seq<Layer>, n: nat) returns (i: int)
    requires n <= |layers|
    ensures -1 <= i < n && forall m :: i < m < n ==> !layers[m].name.Project?
    ensures i == -1 ==> LastFolder(layers[..n]).None?
    ensures i >= 0 ==> layers[i].name.Project? && LastFolder(layers[..n]) == Some(layers[i].name.dotCodexFolder)
  {
    if n == 0 {
      assert layers[..0] == [];
      i := -1;
    } else {
      NestedSnoc(layers, n - 1);
      if layers[n - 1].name.Project? { i := n - 1; } else { i := LastProject(layers, n - 1); }
    }
  }

  // Each project layer below `n` runs on from the one before it.
  ghost predicate EachRunsOn(layers: seq<Layer>, n: nat) {
    forall i: nat, j: nat :: j < n && NextProject(layers, i, j) ==> RunsOn(layers, i, j)
  }

  lemma EachRunsOnSnoc(layers: seq<Layer>, n: nat, last: int)
    requires n < |layers| && IsLastProject(layers, n, last)
    ensures EachRunsOn(layers, n + 1) == (EachRunsOn(layers, n) && Continues(layers, n, last))
  {
    if layers[n].name.Project? && last >= 0 { assert NextProject(layers, last, n); }
    forall i: nat | NextProject(layers, i, n) ensures last >= 0 && i == last {}
  }

  lemma FollowsIsRunsOn(layers: seq<Layer>, i: nat, j: nat)
    requires NextProject(layers, i, j)
    ensures Follows(layers[i].name.dotCodexFolder, layers[j].name.dotCodexFolder) <==> RunsOn(layers, i, j)
  {
  }

  // Where the last project layer so far stands.
  ghost predicate IsLastProject(layers: seq<Layer>, n: nat, last: int)
    requires n <= |layers|
  {
    && -1 <= last < n && (forall m :: last < m < n ==> !layers[m].name.Project?)
    && (last >= 0 ==> layers[last].name.Project?)
  }

  // The layer at `n`, if a project's, runs on from the project layer before it.
  ghost predicate Continues(layers: seq<Layer>, n: nat, last: int)
    requires n < |layers| && IsLastProject(layers, n, last)
  {
    layers[n].name.Project? && last >= 0 ==> RunsOn(layers, last, n)
  }

  lemma NestedStep(layers: seq<Layer>, n: nat, last: int)
    requires n < |layers| && IsLastProject(layers, n, last)
    requires LastFolder(layers[..n]) == if last == -1 then None else Some(layers[last].name.dotCodexFolder)
    ensures Nested(layers[..n + 1]) == (Nested(layers[..n]) && Continues(layers, n, last))
  {
    NestedSnoc(layers, n);
    if layers[n].name.Project? && last >= 0 { FollowsIsRunsOn(layers, last, n); }
  }

  /** Project layers are nested exactly when each runs on from the one before it. */
  lemma {:induction false} NestedExactly(layers: seq<Layer>, n: nat)
    requires n <= |layers|
    ensures Nested(layers[..n]) == EachRunsOn(layers, n)
  {
    if n == 0 {
      assert layers[..0] == [];
    } else {
      NestedExactly(layers, n - 1);
      NestedExactlyStep(layers, n - 1);
    }
  }

  lemma NestedExactlyStep(layers: seq<Layer>, n: nat)
    requires n < |layers| && Nested(layers[..n]) == EachRunsOn(layers, n)
    ensures Nested(layers[..n + 1]) == EachRunsOn(layers, n + 1)
  {
    var last := LastProject(layers, n);
    NestedStep(layers, n, last);
    EachRunsOnSnoc(layers, n, last);
  }

  method IsSorted(layers: seq<Layer>) returns (sorted: bool)
    ensures sorted == Sorted(layers)
  {
    if layers == [] { return true; }
    for i := 1 to |layers|
      invariant forall k :: 0 < k < i <= |layers| ==> Precedence(layers[k - 1].name) <= Precedence(layers[k].name)
    {
      if Precedence(layers[i - 1].name) > Precedence(layers[i].name) { return false; }
    }
    AdjacentSorted(layers);
    return true;
  }

  // The layer at `n` is the first one that breaks the nesting of project folders.
  ghost predicate FirstUnnested(layers: seq<Layer>, n: nat)
    requires n < |layers|
  {
    Nested(layers[..n]) && !Nested(layers[..n + 1])
  }

  /** `verify_layer_ordering`: accepts exactly the sorted, root-to-cwd stacks and finds the last user layer. */
  method VerifyLayerOrdering(layers: seq<Layer>) returns (r: Result<Option<nat>, OrderingError>)
    ensures r.Ok? <==> Sorted(layers) && Nested(layers)
    ensures r.Ok? ==> r.value == LastUser(layers)
    ensures r == Err(NotSorted) <==> !Sorted(layers)
    ensures r == Err(NoParentDirectory) ==>
              exists n: nat :: n < |layers| && FirstUnnested(layers, n) && LastFolder(layers[..n]) == Some([])
    ensures r == Err(NotNested) ==>
              exists n: nat :: n < |layers| && FirstUnnested(layers, n) && LastFolder(layers[..n]) != Some([])
  {
    var sorted := IsSorted(layers);
    if !sorted { return Err(NotSorted); }
    var user: Option<nat> := None;
    var previous: Option<FilePath> := None;
    for i := 0 to |layers|
      invariant user == LastUser(layers[..i])
      invariant Nested(layers[..i]) && previous == LastFolder(layers[..i])
    {
      var layer := layers[i];
      NestedSnoc(layers, i);
      if Nested(layers) { NestedPrefix(layers, i + 1); }
      assert layers[..i + 1][..i] == layers[..i];
      if layer.IsUser() { user := Some(i); }
      if layer.name.Project? {
        var current := layer.name.dotCodexFolder;
        if previous.Some? {
          assert !Follows(previous.value, current) ==> FirstUnnested(layers, i);
          if previous.value == [] { return Err(NoParentDirectory); }
          if previous.value == current || !(previous.value[..|previous.value| - 1] <= current) {
            return Err(NotNested);
          }
        }
        previous := Some(current);
      }
    }
    assert layers[..|layers|] == layers;
    return Ok(user);
  }

  method NewStack(layers: seq<Layer>) returns (r: Result<Stack, OrderingError>)
    ensures r.Ok? <==> Sorted(layers) && Nested(layers)
    ensures r.Ok? ==> Valid(r.value) && r.value.layers == layers
  {
    var index := VerifyLayerOrdering(layers);
    match index {
      case Err(e) => return Err(e);
      case Ok(user) => return Ok(Stack(layers, user, None));
    }
  }

  function ActiveUserLayer(stack: Stack): Option<Layer> {
    match stack.userLayerIndex
    case Some(i) => if i < |stack.layers| then Some(stack.layers[i]) else None
    case None => None
  }

  // First index whose precedence exceeds the given one, or the length.
  function InsertionPoint(layers: seq<Layer>, precedence: int): (i: nat)
    ensures i <= |layers|
  {
    if layers == [] || Precedence(layers[0].name) > precedence then 0
    else 1 + InsertionPoint(layers[1..], precedence)
  }

  lemma {:induction false} InsertionPointSplits(layers: seq<Layer>, precedence: int)
    ensures var i := InsertionPoint(layers, precedence);
            && (forall k :: 0 <= k < i ==> Precedence(layers[k].name) <= precedence)
            && (i < |layers| ==> Precedence(layers[i].name) > precedence)
  {
    if layers != [] && Precedence(layers[0].name) <= precedence {
      InsertionPointSplits(layers[1..], precedence);
    }
  }

  function Inserted(layers: seq<Layer>, layer: Layer): seq<Layer> {
    var i := InsertionPoint(layers, Precedence(layer.name));
    layers[..i] + [layer] + layers[i..]
  }

  // Drops the first user layer backed by the file.
  function WithoutUserFile(layers: seq<Layer>, file: FilePath): seq<Layer> {
    if layers == [] then []
    else if layers[0].name == User(file) then layers[1..]
    else [layers[0]] + WithoutUserFile(layers[1..], file)
  }

  // Exactly the first user layer of the file goes.
  lemma {:induction false} WithoutUserFileExactly(layers: seq<Layer>, file: FilePath, i: nat)
    requires i <= |layers| && forall j :: 0 <= j < i ==> layers[j].name != User(file)
    requires i < |layers| ==> layers[i].name == User(file)
    ensures WithoutUserFile(layers, file) == if i < |layers| then layers[..i] + layers[i + 1..] else layers
  {
    if i > 0 {
      WithoutUserFileExactly(layers[1..], file, i - 1);
      if i < |layers| {
        assert layers[1..][..i - 1] == layers[1..i] && layers[1..][i..] == layers[i + 1..];
        assert [layers[0]] + layers[1..i] == layers[..i];
      }
    }
  }

  lemma {:induction false} WithoutUserFileFacts(layers: seq<Layer>, file: FilePath)
    ensures NonUsers(WithoutUserFile(layers, file)) == NonUsers(layers)
    ensures Users(WithoutUserFile(layers, file)) == WithoutUserFile(Users(layers), file)
    ensures forall l :: l in WithoutUserFile(layers, file) ==> l in layers
  {
    if layers != [] {
      var rest := WithoutUserFile(layers[1..], file);
      WithoutUserFileFacts(layers[1..], file);
      assert ([layers[0]] + rest)[1..] == rest;
      if layers[0].IsUser() { assert Users(layers)[1..] == Users(layers[1..]); }
    }
  }

  lemma {:induction false} WithoutUserFileSorted(layers: seq<Layer>, file: FilePath)
    requires Sorted(layers)
    ensures Sorted(WithoutUserFile(layers, file))
  {
    if layers != [] {
      var rest := WithoutUserFile(layers[1..], file);
      WithoutUserFileSorted(layers[1..], file);
      WithoutUserFileFacts(layers[1..], file);
      SortedCons(layers, rest);
    }
  }

  lemma SortedCons(layers: seq<Layer>, rest: seq<Layer>)
    requires layers != [] && Sorted(layers) && Sorted(rest)
    requires forall l :: l in rest ==> l in layers[1..]
    ensures Sorted([layers[0]] + rest)
  {
    forall j | 0 <= j < |rest| ensures Precedence(layers[0].name) <= Precedence(rest[j].name) {
      assert rest[j] in layers[1..];
    }
  }

  lemma {:induction false} NonUsersSorted(layers: seq<Layer>)
    requires Sorted(layers)
    ensures Sorted(NonUsers(layers))
  {
    if layers != [] {
      NonUsersSorted(layers[1..]);
      FilterMembers(layers[1..], IsOtherLayer);
      SortedCons(layers, NonUsers(layers[1..]));
    }
  }

  lemma InsertedOthers(layers: seq<Layer>, layer: Layer)
    requires layer.IsUser()
    ensures NonUsers(Inserted(layers, layer)) == NonUsers(layers)
  {
    var i := InsertionPoint(layers, Precedence(layer.name));
    assert layers[..i] + layers[i..] == layers;
    FilterConcat(layers[..i], layers[i..], IsOtherLayer);
    FilterConcat(layers[..i] + [layer], layers[i..], IsOtherLayer);
    FilterConcat(layers[..i], [layer], IsOtherLayer);
  }

  lemma NoUserBehind(layers: seq<Layer>, layer: Layer)
    requires layer.IsUser() && Sorted(layers)
    ensures forall l :: l in layers[InsertionPoint(layers, Precedence(layer.name))..] ==> !l.IsUser()
  {
    var i := InsertionPoint(layers, Precedence(layer.name));
    InsertionPointSplits(layers, Precedence(layer.name));
    forall l | l in layers[i..] ensures !l.IsUser() {
      var j :| i <= j < |layers| && layers[j] == l;
    }
  }

  // Into a sorted list a user layer goes behind every other user layer.
  lemma InsertedAfterUsers(layers: seq<Layer>, layer: Layer)
    requires layer.IsUser() && Sorted(layers)
    ensures Users(Inserted(layers, layer)) == Users(layers) + [layer]
    ensures LastUser(Inserted(layers, layer)) == Some(InsertionPoint(layers, Precedence(layer.name)))
  {
    var i := InsertionPoint(layers, Precedence(layer.name));
    NoUserBehind(layers, layer);
    UserAtEnd(layers[..i], layer, layers[i..]);
    assert layers[..i] + layers[i..] == layers;
    LastUserBefore(layers[..i] + [layer], layers[i..]);
  }

  lemma UserAtEnd(a: seq<Layer>, layer: Layer, b: seq<Layer>)
    requires layer.IsUser() && forall l :: l in b ==> !l.IsUser()
    ensures Users(a + [layer] + b) == Users(a + b) + [layer]
  {
    FilterNothing(b, IsUserLayer);
    FilterConcat(a, b, IsUserLayer);
    FilterConcat(a + [layer], b, IsUserLayer);
    FilterConcat(a, [layer], IsUserLayer);
  }

  lemma {:induction false} LastUserBefore(a: seq<Layer>, b: seq<Layer>)
    requires forall l :: l in b ==> !l.IsUser()
    ensures LastUser(a + b) == LastUser(a)
  {
    if b == [] {
      assert a + b == a;
    } else {
      assert (a + b)[..|a + b| - 1] == a + b[..|b| - 1];
      assert b[|b| - 1] in b;
      LastUserBefore(a, b[..|b| - 1]);
    }
  }

  lemma InsertedSorted(layers: seq<Layer>, layer: Layer)
    requires Sorted(layers)
    ensures Sorted(Inserted(layers, layer))
  {
    InsertionPointSplits(layers, Precedence(layer.name));
  }

  lemma WithoutUserFileStep(layers: seq<Layer>, i: nat, file: FilePath)
    requires i < |layers|
    ensures layers[..i] + WithoutUserFile(layers[i..], file) ==
            if layers[i].name == User(file) then layers[..i] + layers[i + 1..]
            else layers[..i + 1] + WithoutUserFile(layers[i + 1..], file)
  {
    assert layers[i..][1..] == layers[i + 1..] && layers[i..][0] == layers[i];
    assert layers[..i] + [layers[i]] == layers[..i + 1];
  }

  // The removal loop of `with_user_config`.
  method RemoveUserFile(layers: seq<Layer>, file: FilePath) returns (kept: seq<Layer>)
    ensures kept == WithoutUserFile(layers, file)
  {
    var i := 0;
    assert layers[0..] == layers;
    while i < |layers| && layers[i].name != User(file)
      invariant 0 <= i <= |layers|
      invariant WithoutUserFile(layers, file) == layers[..i] + WithoutUserFile(layers[i..], file)
    {
      WithoutUserFileStep(layers, i, file);
      i := i + 1;
    }
    if i < |layers| {
      WithoutUserFileStep(layers, i, file);
      kept := layers[..i] + layers[i + 1..];
    } else {
      assert layers[..i] == layers && layers[i..] == [];
      kept := layers;
    }
  }

  /** `with_user_config`. */
  method WithUserConfig(stack: Stack, file: FilePath, config: Value, version: string) returns (updated: Stack)
    ensures var layer := Layer(User(file), config, None, version, None);
            && NonUsers(updated.layers) == NonUsers(stack.layers)
            && updated.userLayerIndex == LastUser(updated.layers)
            && updated.startupWarnings == stack.startupWarnings
            && (Valid(stack) ==>
                  && Valid(updated)
                  && ActiveUserLayer(updated) == Some(layer)
                  && Users(updated.layers) == WithoutUserFile(Users(stack.layers), file) + [layer])
  {
    var layer := Layer(User(file), config, None, version, None);
    var layers := RemoveUserFile(stack.layers, file);
    WithoutUserFileFacts(stack.layers, file);
    if Sorted(stack.layers) { WithoutUserFileSorted(stack.layers, file); }
    InsertedOthers(layers, layer);
    if Sorted(layers) {
      InsertedSorted(layers, layer);
      InsertedAfterUsers(layers, layer);
    }
    layers := Inserted(layers, layer);
    NestedByNonUsers(stack.layers, layers);
    updated := Stack(layers, LastUser(layers), stack.startupWarnings);
  }

  function InsertedAll(layers: seq<Layer>, users: seq<Layer>): seq<Layer> {
    if users == [] then layers
    else Inserted(InsertedAll(layers, users[..|users| - 1]), users[|users| - 1])
  }

  lemma {:induction false} InsertedAllOthers(layers: seq<Layer>, users: seq<Layer>)
    requires forall u :: u in users ==> u.IsUser()
    ensures NonUsers(InsertedAll(layers, users)) == NonUsers(layers)
  {
    if users != [] {
      var n := |users| - 1;
      InsertedAllOthers(layers, users[..n]);
      InsertedOthers(InsertedAll(layers, users[..n]), users[n]);
    }
  }

  lemma {:induction false} InsertedAllSorted(layers: seq<Layer>, users: seq<Layer>)
    requires Sorted(layers)
    ensures Sorted(InsertedAll(layers, users))
  {
    if users != [] {
      var n := |users| - 1;
      InsertedAllSorted(layers, users[..n]);
      InsertedSorted(InsertedAll(layers, users[..n]), users[n]);
    }
  }

  lemma {:induction false} InsertedAllUsers(layers: seq<Layer>, users: seq<Layer>)
    requires Sorted(layers) && forall u :: u in users ==> u.IsUser()
    ensures Users(InsertedAll(layers, users)) == Users(layers) + users
  {
    if users != [] {
      var n := |users| - 1;
      var before := InsertedAll(layers, users[..n]);
      InsertedAllUsers(layers, users[..n]);
      InsertedAllSorted(layers, users[..n]);
      InsertedAfterUsers(before, users[n]);
      calc {
        Users(InsertedAll(layers, users));
        Users(before) + [users[n]];
        Users(layers) + users[..n] + [users[n]];
        { assert users == users[..n] + [users[n]]; }
        Users(layers) + users;
      }
    }
  }

  /** `with_user_layer_from`: the user layers become exactly the other stack's, everything else stays. */
  method WithUserLayerFrom(stack: Stack, other: Stack) returns (updated: Stack)
    ensures NonUsers(updated.layers) == NonUsers(stack.layers)
    ensures updated.userLayerIndex == LastUser(updated.layers)
    ensures updated.startupWarnings == stack.startupWarnings
    ensures Valid(stack) ==> Valid(updated) && Users(updated.layers) == Users(other.layers)
  {
    var users := Users(other.layers);
    ghost var others := NonUsers(stack.layers);
    var layers := NonUsers(stack.layers);
    for i := 0 to |users|
      invariant layers == InsertedAll(others, users[..i])
    {
      layers := Inserted(layers, users[i]);
      assert users[..i + 1][..i] == users[..i];
    }
    assert users[..|users|] == users;
    FilterMembers(other.layers, IsUserLayer);
    FilterMembers(stack.layers, IsOtherLayer);
    InsertedAllOthers(others, users);
    FilterNothing(others, IsUserLayer);
    FilterAll(others, IsOtherLayer);
    if Sorted(stack.layers) {
      NonUsersSorted(stack.layers);
      InsertedAllSorted(others, users);
      InsertedAllUsers(others, users);
    }
    NestedByNonUsers(stack.layers, layers);
    updated := Stack(layers, LastUser(layers), stack.startupWarnings);
  }

  // The value `effective_config` folds from the enabled layers, lowest precedence first.
  function Effective(layers: seq<Layer>): Value {
    if layers == [] then Table(map[])
    else
      var below := Effective(layers[..|layers| - 1]);
      var top := layers[|layers| - 1];
      if top.Enabled() then Merged(below, top.config) else below
  }

  method EffectiveConfig(stack: Stack) returns (merged: Value)
    ensures merged == Effective(stack.layers)
  {
    merged := Table(map[]);
    for i := 0 to |stack.layers|
      invariant merged == Effective(stack.layers[..i])
    {
      assert stack.layers[..i + 1][..i] == stack.layers[..i];
      if stack.layers[i].Enabled() {
        merged := MergeTomlValues(merged, stack.layers[i].config);
      }
    }
    assert stack.layers[..|stack.layers|] == stack.layers;
  }

  /** A disabled layer counts for nothing, wherever it stands. */
  lemma {:induction false} DisabledIgnored(below: seq<Layer>, layer: Layer, above: seq<Layer>)
    requires layer.disabledReason.Some?
    ensures Effective(below + [layer] + above) == Effective(below + above)
  {
    if above == [] {
      assert below + [layer] + above == below + [layer] && below + above == below;
      assert (below + [layer])[..|below|] == below;
    } else {
      var n := |above| - 1;
      var with, without := below + [layer] + above, below + above;
      assert with[..|with| - 1] == below + [layer] + above[..n] && without[..|without| - 1] == below + above[..n];
      DisabledIgnored(below, layer, above[..n]);
    }
  }

  // An enabled one is merged over what lies below it.
  lemma EnabledMerged(below: seq<Layer>, layer: Layer)
    requires layer.disabledReason.None?
    ensures Effective(below + [layer]) == Merged(Effective(below), layer.config)
  {
    assert (below + [layer])[..|below|] == below;
  }
}
