/** Which layer an effective value comes from: effective-layer search, recorded origins, override blame. */
module Provenance {
  import opened Prelude
  import opened Toml
  import opened Merge
  import opened Layers

  // Index of the highest enabled layer that has a value at the path.
  function TopHolder(layers: seq<Layer>, path: Path): (top: Option<nat>)
    ensures top.Some? ==>
      && top.value < |layers| && layers[top.value].Enabled()
      && Lookup(layers[top.value].config, path).Some?
  {
    if layers == [] then None
    else
      var n := |layers| - 1;
      if layers[n].Enabled() && Lookup(layers[n].config, path).Some? then Some(n)
      else TopHolder(layers[..n], path)
  }

  // The high-to-low search of `find_effective_layer`.
  method FindEffectiveLayer(stack: Stack, path: Path) returns (meta: Option<Metadata>)
    ensures meta == match TopHolder(stack.layers, path)
                    case None => None
                    case Some(i) => Some(stack.layers[i].Meta())
  {
    var i := |stack.layers|;
    assert stack.layers[..i] == stack.layers;
    while i > 0
      invariant 0 <= i <= |stack.layers|
      invariant TopHolder(stack.layers, path) == TopHolder(stack.layers[..i], path)
    {
      i := i - 1;
      assert stack.layers[..i + 1][..i] == stack.layers[..i];
      if stack.layers[i].Enabled() {
        var found := ValueAtPath(stack.layers[i].config, path);
        if found.Some? { return Some(stack.layers[i].Meta()); }
      }
    }
    return None;
  }

  /** The layer found for a path holds the effective value there, unless that value is a table. */
  lemma {:induction false} EffectiveLayerHoldsValue(layers: seq<Layer>, path: Path)
    requires Lookup(Effective(layers), path).Some? && !Lookup(Effective(layers), path).value.Table?
    ensures TopHolder(layers, path).Some?
    ensures Lookup(layers[TopHolder(layers, path).value].config, path) == Lookup(Effective(layers), path)
  {
    if layers != [] {
      var n := |layers| - 1;
      var top := layers[n];
      if top.Enabled() && Lookup(top.config, path).Some? {
        OverlayWins(Effective(layers[..n]), top.config, path);
      } else {
        if top.Enabled() { OverlaySilent(Effective(layers[..n]), top.config, path); }
        EffectiveLayerHoldsValue(layers[..n], path);
      }
    }
  }

  // An enabled layer above the i-th replaces something the i-th has on the way to the path.
  predicate CutAbove(layers: seq<Layer>, i: nat, path: Path)
    requires i < |layers|
  {
    exists j :: i < j < |layers| && layers[j].Enabled() && CutsOff(layers[i].config, layers[j].config, path)
  }

  // What the highest holder's value becomes on top of the layers below it.
  function Held(below: Value, own: Value, path: Path): Option<Value> {
    if BothTables(below, own, path) then Some(Merged(Lookup(below, path).value, Lookup(own, path).value))
    else Lookup(own, path)
  }

  lemma CutAboveSnoc(layers: seq<Layer>, i: nat, path: Path)
    requires i < |layers| - 1
    ensures var n := |layers| - 1;
            CutAbove(layers, i, path) <==>
            CutAbove(layers[..n], i, path) || (layers[n].Enabled() && CutsOff(layers[i].config, layers[n].config, path))
  {
    var n := |layers| - 1;
    assert forall j :: 0 <= j < n ==> layers[..n][j] == layers[j];
  }

  // The effective value at a path is the one seen by its highest holder, and gone if that one was cut off above.
  ghost predicate SeenFrom(layers: seq<Layer>, i: nat, path: Path)
    requires i < |layers|
  {
    && Lookup(Effective(layers), path) ==
       (if CutAbove(layers, i, path) then None else Held(Effective(layers[..i]), layers[i].config, path))
    && (!CutAbove(layers, i, path) ==> SameTables(Effective(layers), layers[i].config, path))
  }

  lemma SeenFromTop(layers: seq<Layer>, path: Path)
    requires layers != [] && layers[|layers| - 1].Enabled() && Lookup(layers[|layers| - 1].config, path).Some?
    ensures SeenFrom(layers, |layers| - 1, path)
  {
    var n := |layers| - 1;
    HeldMerged(Effective(layers[..n]), layers[n].config, path);
    OverlayKeepsTables(Effective(layers[..n]), layers[n].config, path);
  }

  // One more enabled layer that does not have the path.
  lemma SeenThroughSilent(base: Value, own: Value, top: Value, path: Path)
    requires Lookup(top, path).None? && SameTables(base, own, path) && Lookup(base, path).Some?
    ensures Lookup(Merged(base, top), path) == if CutsOff(own, top, path) then None else Lookup(base, path)
    ensures !CutsOff(own, top, path) ==> SameTables(Merged(base, top), own, path)
  {
    SameTablesCutAlike(base, own, top, path);
    SilentOverlay(base, top, path);
    if !CutsOff(base, top, path) { SilentKeepsTables(base, top, path); }
  }

  lemma SeenFromBelow(layers: seq<Layer>, i: nat, path: Path)
    requires i < |layers| - 1 && Lookup(layers[i].config, path).Some? && SeenFrom(layers[..|layers| - 1], i, path)
    requires layers[|layers| - 1].Enabled() ==> Lookup(layers[|layers| - 1].config, path).None?
    ensures SeenFrom(layers, i, path)
  {
    var n := |layers| - 1;
    var base, own, top := Effective(layers[..n]), layers[i].config, layers[n].config;
    assert layers[..n][..i] == layers[..i] && layers[..n][i] == layers[i];
    CutAboveSnoc(layers, i, path);
    if layers[n].Enabled() {
      if CutAbove(layers[..n], i, path) {
        OverlaySilent(base, top, path);
      } else {
        SeenThroughSilent(base, own, top, path);
      }
    }
  }

  /** The effective value of any path in any stack: the value of its highest holder, merged with the tables below it,
      unless a layer above replaces something on the way. */
  lemma {:induction false} EffectiveSeenFromHolder(layers: seq<Layer>, path: Path)
    requires TopHolder(layers, path).Some?
    ensures SeenFrom(layers, TopHolder(layers, path).value, path)
  {
    var n := |layers| - 1;
    if layers[n].Enabled() && Lookup(layers[n].config, path).Some? {
      SeenFromTop(layers, path);
    } else {
      EffectiveSeenFromHolder(layers[..n], path);
      SeenFromBelow(layers, TopHolder(layers, path).value, path);
    }
  }

  // Without a holder there is no value.
  lemma {:induction false} NoHolderNoValue(layers: seq<Layer>, path: Path)
    requires TopHolder(layers, path).None? && path != []
    ensures Lookup(Effective(layers), path).None?
  {
    if layers != [] {
      var n := |layers| - 1;
      NoHolderNoValue(layers[..n], path);
      if layers[n].Enabled() { OverlaySilent(Effective(layers[..n]), layers[n].config, path); }
    }
  }

  lemma {:induction false} TopHolderIsHighest(layers: seq<Layer>, path: Path, i: nat)
    requires i < |layers| && layers[i].Enabled() && Lookup(layers[i].config, path).Some?
    ensures TopHolder(layers, path).Some? && i <= TopHolder(layers, path).value
  {
    var n := |layers| - 1;
    if !(layers[n].Enabled() && Lookup(layers[n].config, path).Some?) {
      assert layers[..n][i] == layers[i];
      TopHolderIsHighest(layers[..n], path, i);
    }
  }

  // ---------- recorded origins ----------

  predicate DotFree(path: Path) {
    forall s :: s in path ==> '.' !in s
  }

  function FirstDot(s: string): (i: nat)
    ensures i <= |s|
  {
    if s == "" || s[0] == '.' then 0 else 1 + FirstDot(s[1..])
  }

  lemma {:induction false} FirstDotAfter(head: string, tail: string)
    requires '.' !in head && (tail == "" || tail[0] == '.')
    ensures FirstDot(head + tail) == |head|
  {
    if head == "" {
      assert head + tail == tail;
    } else {
      assert (head + tail)[1..] == head[1..] + tail;
      FirstDotAfter(head[1..], tail);
    }
  }

  lemma HeadOfJoin(p: Path)
    requires p != [] && DotFree(p)
    ensures FirstDot(Join(p)) == |p[0]| && p[0] == Join(p)[..|p[0]|]
    ensures |p| == 1 <==> |Join(p)| == |p[0]|
    ensures |p| > 1 ==> Join(p[1..]) == Join(p)[|p[0]| + 1..]
  {
    assert p[0] in p;
    if |p| == 1 {
      assert p[0] + "" == p[0];
      FirstDotAfter(p[0], "");
    } else {
      assert p[0] + "." + Join(p[1..]) == p[0] + ("." + Join(p[1..]));
      FirstDotAfter(p[0], "." + Join(p[1..]));
    }
  }

  lemma {:induction false} JoinInjective(p: Path, q: Path)
    requires p != [] && q != [] && DotFree(p) && DotFree(q) && Join(p) == Join(q)
    ensures p == q
  {
    HeadOfJoin(p);
    HeadOfJoin(q);
    if |p| > 1 { JoinInjective(p[1..], q[1..]); }
    assert p == [p[0]] + p[1..] && q == [q[0]] + q[1..];
  }

  // The tree has a scalar at the path, array positions written as `record_origins` writes them.
  ghost predicate LeafAt(v: Value, path: Path) {
    match v
    case Leaf(_) => path == []
    case Table(entries) => path != [] && path[0] in entries && LeafAt(entries[path[0]], path[1..])
    case Array(items) =>
      path != [] && exists i :: 0 <= i < |items| && path[0] == Decimal(i) && LeafAt(items[i], path[1..])
  }

  // The keys one layer writes into the origins map, below a path prefix.
  ghost function LeafKeys(v: Value, prefix: Path): set<string>
    decreases v
  {
    match v
    case Leaf(_) => if prefix == [] then {} else {Join(prefix)}
    case Table(entries) =>
      set k, key | k in entries && key in LeafKeys(entries[k], prefix + [k]) :: key
    case Array(items) =>
      set i, key | 0 <= i < |items| && key in LeafKeys(items[i], prefix + [Decimal(i)]) :: key
  }

  // A key of `v` below `prefix` is the joined name of one of its leaves.
  lemma {:induction false} LeafKeyFromPath(v: Value, prefix: Path, path: Path)
    requires LeafAt(v, path) && prefix + path != []
    ensures Join(prefix + path) in LeafKeys(v, prefix)
    decreases v
  {
    match v {
      case Leaf(_) => assert prefix + path == prefix;
      case Table(entries) =>
        assert prefix + path == (prefix + [path[0]]) + path[1..];
        LeafKeyFromPath(entries[path[0]], prefix + [path[0]], path[1..]);
      case Array(items) =>
        var i :| 0 <= i < |items| && path[0] == Decimal(i) && LeafAt(items[i], path[1..]);
        assert prefix + path == (prefix + [path[0]]) + path[1..];
        LeafKeyFromPath(items[i], prefix + [Decimal(i)], path[1..]);
    }
  }

  lemma Extended(prefix: Path, segment: string, rest: Path)
    ensures prefix + ([segment] + rest) == (prefix + [segment]) + rest && ([segment] + rest)[1..] == rest
  {
  }

  lemma {:induction false} LeafKeyHasPath(v: Value, prefix: Path, key: string) returns (path: Path)
    requires key in LeafKeys(v, prefix)
    ensures LeafAt(v, path) && prefix + path != [] && Join(prefix + path) == key
    decreases v
  {
    match v {
      case Leaf(_) =>
        path := [];
        assert prefix + [] == prefix;
      case Table(entries) =>
        var k :| k in entries && key in LeafKeys(entries[k], prefix + [k]);
        var rest := LeafKeyHasPath(entries[k], prefix + [k], key);
        path := [k] + rest;
        Extended(prefix, k, rest);
      case Array(items) =>
        var i :| 0 <= i < |items| && key in LeafKeys(items[i], prefix + [Decimal(i)]);
        var rest := LeafKeyHasPath(items[i], prefix + [Decimal(i)], key);
        path := [Decimal(i)] + rest;
        Extended(prefix, Decimal(i), rest);
    }
  }

  type Origins = map<string, Metadata>

  ghost function Recorded(origins: Origins, keys: set<string>, meta: Metadata): Origins {
    origins + map key | key in keys :: meta
  }

  // `record_origins`, with the path pushed and popped around each child.
  method RecordOrigins(v: Value, meta: Metadata, path: Path, origins: Origins) returns (after: Origins)
    ensures after == Recorded(origins, LeafKeys(v, path), meta)
    decreases v, 1
  {
    match v {
      case Table(_) => after := RecordTable(v, meta, path, origins);
      case Array(_) => after := RecordArray(v, meta, path, origins);
      case Leaf(_) => after := if path != [] then origins[Join(path) := meta] else origins;
    }
  }

  method RecordTable(v: Value, meta: Metadata, path: Path, origins: Origins) returns (after: Origins)
    requires v.Table?
    ensures after == Recorded(origins, LeafKeys(v, path), meta)
    decreases v, 0
  {
    after := origins;
    ghost var done: set<string> := {};
    var entries := v.entries;
    var todo := entries.Keys;
    while todo != {}
      invariant todo <= entries.Keys
      invariant forall key :: key in done <==>
                  exists k :: k in entries.Keys - todo && key in LeafKeys(entries[k], path + [k])
      invariant after == Recorded(origins, done, meta)
    {
      var k :| k in todo;
      after := RecordOrigins(entries[k], meta, path + [k], after);
      RecordedTwice(origins, done, LeafKeys(entries[k], path + [k]), meta);
      done := done + LeafKeys(entries[k], path + [k]);
      todo := todo - {k};
    }
    assert done == LeafKeys(v, path);
  }

  method RecordArray(v: Value, meta: Metadata, path: Path, origins: Origins) returns (after: Origins)
    requires v.Array?
    ensures after == Recorded(origins, LeafKeys(v, path), meta)
    decreases v, 0
  {
    after := origins;
    ghost var done: set<string> := {};
    var items := v.items;
    for i := 0 to |items|
      invariant forall key :: key in done <==> exists j :: 0 <= j < i && key in LeafKeys(items[j], path + [Decimal(j)])
      invariant after == Recorded(origins, done, meta)
    {
      after := RecordOrigins(items[i], meta, path + [Decimal(i)], after);
      RecordedTwice(origins, done, LeafKeys(items[i], path + [Decimal(i)]), meta);
      done := done + LeafKeys(items[i], path + [Decimal(i)]);
    }
    assert done == LeafKeys(v, path);
  }

  lemma RecordedTwice(origins: Origins, a: set<string>, b: set<string>, meta: Metadata)
    ensures Recorded(Recorded(origins, a, meta), b, meta) == Recorded(origins, a + b, meta)
  {}

  ghost function OriginsOf(layers: seq<Layer>): Origins {
    if layers == [] then map[]
    else
      var below := OriginsOf(layers[..|layers| - 1]);
      var top := layers[|layers| - 1];
      if top.Enabled() then Recorded(below, LeafKeys(top.config, []), top.Meta()) else below
  }

  method StackOrigins(stack: Stack) returns (origins: Origins)
    ensures origins == OriginsOf(stack.layers)
  {
    origins := map[];
    for i := 0 to |stack.layers|
      invariant origins == OriginsOf(stack.layers[..i])
    {
      assert stack.layers[..i + 1][..i] == stack.layers[..i];
      if stack.layers[i].Enabled() {
        origins := RecordOrigins(stack.layers[i].config, stack.layers[i].Meta(), [], origins);
      }
    }
    assert stack.layers[..|stack.layers|] == stack.layers;
  }

  // Index of the highest enabled layer that writes the joined key.
  ghost function TopWriter(layers: seq<Layer>, key: string): (top: Option<nat>)
    ensures top.Some? ==> top.value < |layers| && layers[top.value].Enabled()
                          && key in LeafKeys(layers[top.value].config, [])
  {
    if layers == [] then None
    else
      var n := |layers| - 1;
      if layers[n].Enabled() && key in LeafKeys(layers[n].config, []) then Some(n)
      else TopWriter(layers[..n], key)
  }

  /** The origins map names, for each joined key, the highest enabled layer with a scalar of that name. */
  lemma {:induction false} OriginsNameTopWriter(layers: seq<Layer>, key: string)
    ensures key in OriginsOf(layers) <==> TopWriter(layers, key).Some?
    ensures key in OriginsOf(layers) ==>
              OriginsOf(layers)[key] == layers[TopWriter(layers, key).value].Meta()
  {
    if layers != [] { OriginsNameTopWriter(layers[..|layers| - 1], key); }
  }

  // Some scalar of the tree has this joined name, whatever dots its keys contain.
  ghost predicate Spells(v: Value, key: string) {
    exists path :: path != [] && LeafAt(v, path) && Join(path) == key
  }

  lemma SpellsIsKey(v: Value, key: string)
    ensures Spells(v, key) <==> key in LeafKeys(v, [])
  {
    if Spells(v, key) {
      var path :| path != [] && LeafAt(v, path) && Join(path) == key;
      assert [] + path == path;
      LeafKeyFromPath(v, [], path);
    }
    if key in LeafKeys(v, []) {
      var path := LeafKeyHasPath(v, [], key);
      assert [] + path == path;
    }
  }

  // The highest enabled layer that spells the key.
  ghost predicate NamedFor(layers: seq<Layer>, key: string, w: nat) {
    && w < |layers| && layers[w].Enabled() && Spells(layers[w].config, key)
    && forall j :: w < j < |layers| && layers[j].Enabled() ==> !Spells(layers[j].config, key)
  }

  lemma {:induction false} TopWriterIsNamed(layers: seq<Layer>, key: string, w: nat)
    ensures TopWriter(layers, key) == Some(w) <==> NamedFor(layers, key, w)
  {
    if layers != [] {
      var n := |layers| - 1;
      SpellsIsKey(layers[n].config, key);
      if w < n { TopWriterIsNamed(layers[..n], key, w); }
    }
  }

  /** For any keys, dotted or not: `origins` has an entry for a joined key exactly when some enabled layer spells
      the key, and the entry names the highest such layer. */
  lemma OriginNamesLayer(layers: seq<Layer>, key: string)
    ensures key in OriginsOf(layers) <==> exists w: nat :: NamedFor(layers, key, w)
    ensures forall w: nat :: NamedFor(layers, key, w) ==>
              key in OriginsOf(layers) && OriginsOf(layers)[key] == layers[w].Meta()
  {
    OriginsNameTopWriter(layers, key);
    forall w: nat ensures TopWriter(layers, key) == Some(w) <==> NamedFor(layers, key, w) {
      TopWriterIsNamed(layers, key, w);
    }
  }

  /** Provenance of an effective scalar, for any keys: the search finds a layer that holds it, and `origins` names that
      layer exactly when the highest layer that spells the joined path goes by the same name and version. */
  lemma OriginsAgreeWithEffective(layers: seq<Layer>, path: Path)
    requires path != []
    requires Lookup(Effective(layers), path).Some? && Lookup(Effective(layers), path).value.Leaf?
    ensures TopHolder(layers, path).Some?
    ensures var i := TopHolder(layers, path).value;
            && Lookup(layers[i].config, path) == Lookup(Effective(layers), path)
            && (Join(path) in OriginsOf(layers) && OriginsOf(layers)[Join(path)] == layers[i].Meta() <==>
                  exists w: nat :: NamedFor(layers, Join(path), w) && layers[w].Meta() == layers[i].Meta())
  {
    EffectiveLayerHoldsValue(layers, path);
    OriginNamesLayer(layers, Join(path));
  }

  // A disabled layer is the origin of nothing.
  lemma {:induction false} DisabledHasNoOrigins(below: seq<Layer>, layer: Layer, above: seq<Layer>)
    requires layer.disabledReason.Some?
    ensures OriginsOf(below + [layer] + above) == OriginsOf(below + above)
  {
    if above == [] {
      assert below + [layer] + above == below + [layer] && below + above == below;
      assert (below + [layer])[..|below|] == below;
    } else {
      var n := |above| - 1;
      var with, without := below + [layer] + above, below + above;
      assert with[..|with| - 1] == below + [layer] + above[..n] && without[..|without| - 1] == below + above[..n];
      DisabledHasNoOrigins(below, layer, above[..n]);
    }
  }

  // Array positions counted by an `i32`.
  predicate ArraysFit(v: Value) {
    match v
    case Leaf(_) => true
    case Table(entries) => forall k :: k in entries ==> ArraysFit(entries[k])
    case Array(items) => |items| <= 0x8000_0000 && forall i :: 0 <= i < |items| ==> ArraysFit(items[i])
  }

  predicate KeysDotFree(v: Value) {
    match v
    case Leaf(_) => true
    case Table(entries) => forall k :: k in entries ==> '.' !in k && KeysDotFree(entries[k])
    case Array(items) => forall i :: 0 <= i < |items| ==> KeysDotFree(items[i])
  }

  // Every array index met along the path is written in canonical decimal.
  predicate Canonical(v: Value, path: Path) {
    path == [] ||
    match Child(v, path[0])
    case None => true
    case Some(w) => (v.Array? ==> path[0] == Decimal(ParseI64(path[0]).value)) && Canonical(w, path[1..])
  }

  lemma {:induction false} LeafAtIsCanonicalLookup(v: Value, path: Path)
    requires ArraysFit(v)
    ensures LeafAt(v, path) <==>
            Lookup(v, path).Some? && Lookup(v, path).value.Leaf? && Canonical(v, path)
    decreases v
  {
    if path != [] {
      match v {
        case Leaf(_) =>
        case Table(entries) =>
          if path[0] in entries { LeafAtIsCanonicalLookup(entries[path[0]], path[1..]); }
        case Array(items) =>
          forall i | 0 <= i < |items| && path[0] == Decimal(i)
            ensures ParseI64(path[0]) == Some(i)
          {
            ParseDecimal(i);
          }
          if Child(v, path[0]).Some? {
            var i := ParseI64(path[0]).value;
            LeafAtIsCanonicalLookup(items[i], path[1..]);
            if path[0] == Decimal(i) && LeafAt(items[i], path[1..]) { assert LeafAt(v, path); }
          }
      }
    }
  }

  lemma {:induction false} LeafPathDotFree(v: Value, path: Path)
    requires KeysDotFree(v) && LeafAt(v, path)
    ensures DotFree(path)
    decreases v
  {
    match v {
      case Leaf(_) =>
      case Table(entries) =>
        LeafPathDotFree(entries[path[0]], path[1..]);
      case Array(items) =>
        var i :| 0 <= i < |items| && path[0] == Decimal(i) && LeafAt(items[i], path[1..]);
        LeafPathDotFree(items[i], path[1..]);
    }
  }

  lemma KeyIsLeaf(v: Value, path: Path)
    requires KeysDotFree(v) && DotFree(path) && path != [] && Join(path) in LeafKeys(v, [])
    ensures LeafAt(v, path)
  {
    var q := LeafKeyHasPath(v, [], Join(path));
    assert [] + q == q;
    LeafPathDotFree(v, q);
    JoinInjective(path, q);
  }

  lemma {:induction false} WriterIsHolder(layers: seq<Layer>, path: Path)
    requires path != [] && DotFree(path)
    requires forall l :: l in layers ==> KeysDotFree(l.config) && ArraysFit(l.config)
    requires TopHolder(layers, path).Some?
    requires Lookup(layers[TopHolder(layers, path).value].config, path).value.Leaf?
    ensures TopWriter(layers, Join(path)) == TopHolder(layers, path) <==>
            Canonical(layers[TopHolder(layers, path).value].config, path)
  {
    var n := |layers| - 1;
    var top := layers[n];
    assert top in layers;
    LeafAtIsCanonicalLookup(top.config, path);
    if LeafAt(top.config, path) { LeafKeyFromPath(top.config, [], path); assert [] + path == path; }
    if Join(path) in LeafKeys(top.config, []) { KeyIsLeaf(top.config, path); }
    if !(top.Enabled() && Lookup(top.config, path).Some?) {
      WriterIsHolder(layers[..n], path);
    }
  }

  // No other layer goes by the same name and version.
  predicate OwnName(layers: seq<Layer>, i: nat)
    requires i < |layers|
  {
    forall w :: 0 <= w < |layers| && w != i ==> layers[w].Meta() != layers[i].Meta()
  }

  /** With dot-free keys, search and origins name one layer for every canonically written path of an effective
      scalar, and for no other path if the layer has a name of its own. */
  lemma DotFreeOriginsAgree(layers: seq<Layer>, path: Path)
    requires path != [] && DotFree(path)
    requires forall l :: l in layers ==> KeysDotFree(l.config) && ArraysFit(l.config)
    requires Lookup(Effective(layers), path).Some? && Lookup(Effective(layers), path).value.Leaf?
    ensures TopHolder(layers, path).Some?
    ensures var i := TopHolder(layers, path).value;
            var agree := Join(path) in OriginsOf(layers) && OriginsOf(layers)[Join(path)] == layers[i].Meta();
            && (Canonical(layers[i].config, path) ==> agree)
            && (OwnName(layers, i) ==> (agree <==> Canonical(layers[i].config, path)))
  {
    EffectiveLayerHoldsValue(layers, path);
    WriterIsHolder(layers, path);
    OriginsNameTopWriter(layers, Join(path));
  }

  // An index written with a leading zero finds a value for which no origin is recorded.
  lemma PaddedIndexExample(meta: Metadata)
    ensures var layers := [Layer(meta.name, Table(map["a" := Array([Leaf(Integer(7))])]), None, meta.version, None)];
            && Lookup(Effective(layers), ["a", "00"]) == Some(Leaf(Integer(7)))
            && Join(["a", "00"]) !in OriginsOf(layers)
  {
    var config := Table(map["a" := Array([Leaf(Integer(7))])]);
    var layer := Layer(meta.name, config, None, meta.version, None);
    var layers, path := [layer], ["a", "00"];
    assert layers[..0] == [];
    assert Effective(layers) == Merged(Table(map[]), config) == config;
    assert path[1..] == ["00"] && ["00"][1..] == [];
    PaddedZero();
    assert Lookup(config, path) == Lookup(config.entries["a"], ["00"]) == Lookup(Leaf(Integer(7)), []);
    assert TopHolder(layers, path) == Some(0);
    assert !Canonical(config, path) by {
      assert !Canonical(config.entries["a"], ["00"]);
    }
    WriterIsHolder(layers, path);
    OriginsNameTopWriter(layers, Join(path));
  }

  lemma PaddedZero()
    ensures ParseI64("00") == Some(0) && Decimal(0) != "00"
  {
    assert "00"[..1] == "0" && "0"[..0] == "";
    assert Digits("0") == 0;
  }

  // A quoted key with a dot in a higher layer takes over the entry of a nested key below it.
  lemma DottedKeyHijacksOrigin(low: Metadata, high: Metadata)
    requires low != high
    ensures var nested := Table(map["a" := Table(map["b" := Leaf(Integer(1))])]);
            var dotted := Table(map["a.b" := Leaf(Integer(2))]);
            var bottom := Layer(low.name, nested, None, low.version, None);
            var layers := [bottom, Layer(high.name, dotted, None, high.version, None)];
            && Lookup(Effective(layers), ["a", "b"]) == Some(Leaf(Integer(1)))
            && TopHolder(layers, ["a", "b"]) == Some(0)
            && "a.b" in OriginsOf(layers) && OriginsOf(layers)["a.b"] == high
  {
    var nested := Table(map["a" := Table(map["b" := Leaf(Integer(1))])]);
    var dotted := Table(map["a.b" := Leaf(Integer(2))]);
    var bottom := Layer(low.name, nested, None, low.version, None);
    var layers := [bottom, Layer(high.name, dotted, None, high.version, None)];
    assert layers[..1] == [bottom] && [bottom][..0] == [];
    assert Effective([bottom]) == Merged(Table(map[]), nested) == nested;
    var merged := Merged(nested, dotted);
    assert Effective(layers) == merged;
    assert merged.entries["a"] == nested.entries["a"];
    assert ["a", "b"][1..] == ["b"] && ["b"][1..] == [];
    assert Lookup(merged, ["a", "b"]) == Lookup(merged.entries["a"], ["b"]) == Lookup(Leaf(Integer(1)), []);
    assert Lookup(nested, ["a", "b"]) == Lookup(nested.entries["a"], ["b"]) == Lookup(Leaf(Integer(1)), []);
    assert Lookup(dotted, ["a", "b"]) == None;
    assert [] + ["a.b"] == ["a.b"];
    assert LeafAt(dotted, ["a.b"]);
    LeafKeyFromPath(dotted, [], ["a.b"]);
  }

  // ---------- override metadata ----------

  datatype Overridden = Overridden(layer: Metadata, effectiveValue: Option<Value>)

  method ComputeOverrideMetadata(stack: Stack, effective: Value, path: Path) returns (r: Option<Overridden>)
    ensures r == OverrideOf(stack, effective, path)
  {
    var user := ActiveUserLayer(stack);
    if user.None? { return None; }
    var userValue := ValueAtPath(user.value.config, path);
    var effectiveValue := ValueAtPath(effective, path);
    if userValue.Some? && userValue == effectiveValue { return None; }
    if userValue.None? && effectiveValue.None? { return None; }
    var layer := FindEffectiveLayer(stack, path);
    if layer.None? { return None; }
    return Some(Overridden(layer.value, effectiveValue));
  }

  function OverrideOf(stack: Stack, effective: Value, path: Path): Option<Overridden> {
    match ActiveUserLayer(stack)
    case None => None
    case Some(user) =>
      if Lookup(user.config, path) == Lookup(effective, path) then None
      else match TopHolder(stack.layers, path)
        case None => None
        case Some(i) => Some(Overridden(stack.layers[i].Meta(), Lookup(effective, path)))
  }

  // Everything a table holder sets below the path is what is effective there.
  lemma HolderShowsThrough(below: Value, own: Value, path: Path, rest: Path)
    requires IsTableAt(own, path)
    requires Lookup(own, path + rest).Some? && !Lookup(own, path + rest).value.Table?
    ensures Held(below, own, path).Some? && Lookup(Held(below, own, path).value, rest) == Lookup(own, path + rest)
  {
    LookupConcat(own, path, rest);
    if BothTables(below, own, path) { OverlayWins(Lookup(below, path).value, Lookup(own, path).value, rest); }
  }

  // The layer at `i` is the highest enabled one with the path. Its value is gone exactly when a layer above cuts the
  // path off; otherwise the effective value `e` is its own, or, where that is a table, one with all its scalars and
  // arrays.
  ghost predicate Holds(layers: seq<Layer>, i: nat, path: Path, e: Option<Value>) {
    && i < |layers| && layers[i].Enabled() && Lookup(layers[i].config, path).Some?
    && (forall j :: i < j < |layers| && layers[j].Enabled() ==> Lookup(layers[j].config, path).None?)
    && (e.None? <==> CutAbove(layers, i, path))
    && (e.Some? && !e.value.Table? ==> Lookup(layers[i].config, path) == e)
    && (e.Some? && e.value.Table? ==>
          IsTableAt(layers[i].config, path) &&
          forall rest ::
            Lookup(layers[i].config, path + rest).Some? && !Lookup(layers[i].config, path + rest).value.Table?
            ==> Lookup(e.value, rest) == Lookup(layers[i].config, path + rest))
    && (Lookup(layers[i].config, path) == e <==> Undisturbed(layers, i, path))
  }

  // Nothing above cuts the path off, and nothing below adds a key to the table there.
  predicate Undisturbed(layers: seq<Layer>, i: nat, path: Path)
    requires i < |layers|
  {
    var below, own := Effective(layers[..i]), layers[i].config;
    && !CutAbove(layers, i, path)
    && (BothTables(below, own, path) ==> Covered(Lookup(below, path).value, Lookup(own, path).value))
  }

  lemma HolderSeenExactly(layers: seq<Layer>, path: Path)
    requires TopHolder(layers, path).Some?
    ensures var i := TopHolder(layers, path).value;
            && (Lookup(Effective(layers), path).None? <==> CutAbove(layers, i, path))
            && (Lookup(layers[i].config, path) == Lookup(Effective(layers), path) <==> Undisturbed(layers, i, path))
  {
    var i := TopHolder(layers, path).value;
    var below, own := Effective(layers[..i]), layers[i].config;
    EffectiveSeenFromHolder(layers, path);
    if BothTables(below, own, path) { MergeIsOverlay(Lookup(below, path).value, Lookup(own, path).value); }
  }

  ghost predicate HeldSomewhere(layers: seq<Layer>, path: Path, e: Option<Value>) {
    exists i: nat :: Holds(layers, i, path, e)
  }

  lemma TopHolderHolds(layers: seq<Layer>, path: Path)
    requires TopHolder(layers, path).Some?
    ensures Holds(layers, TopHolder(layers, path).value, path, Lookup(Effective(layers), path))
  {
    var i := TopHolder(layers, path).value;
    var below, own, e := Effective(layers[..i]), layers[i].config, Lookup(Effective(layers), path);
    EffectiveSeenFromHolder(layers, path);
    HolderSeenExactly(layers, path);
    forall j | i < j < |layers| && layers[j].Enabled() ensures Lookup(layers[j].config, path).None? {
      if Lookup(layers[j].config, path).Some? { TopHolderIsHighest(layers, path, j); }
    }
    if e.Some? && e.value.Table? {
      forall rest | Lookup(own, path + rest).Some? && !Lookup(own, path + rest).value.Table?
        ensures Lookup(e.value, rest) == Lookup(own, path + rest)
      {
        HolderShowsThrough(below, own, path, rest);
      }
    }
  }

  /** What an override report says, for any effective value: it is made exactly when the user's own value differs
      and some layer has the path, and names the highest such layer, which is not below an enabled user layer that
      sets the path. The value of the layer named is the effective one exactly when no layer above cuts it off and
      no layer below adds to it; a layer that took the value away is never named. */
  lemma OverrideBlamesHolder(stack: Stack, path: Path)
    requires Valid(stack) && ActiveUserLayer(stack).Some?
    ensures var e := Lookup(Effective(stack.layers), path);
            var u := stack.userLayerIndex.value;
            var own := Lookup(stack.layers[u].config, path);
            var r := OverrideOf(stack, Effective(stack.layers), path);
            && (r.Some? <==> own != e && HeldSomewhere(stack.layers, path, e))
            && (path != [] && (e.Some? || stack.layers[u].Enabled()) ==> (r.Some? <==> own != e))
            && (r.Some? ==>
                  exists i: nat :: Holds(stack.layers, i, path, e)
                    && r.value == Overridden(stack.layers[i].Meta(), e)
                    && (own.Some? && stack.layers[u].Enabled() ==> u <= i))
  {
    var u := stack.userLayerIndex.value;
    if Lookup(stack.layers[u].config, path).Some? && stack.layers[u].Enabled() {
      TopHolderIsHighest(stack.layers, path, u);
    }
    if TopHolder(stack.layers, path).Some? {
      TopHolderHolds(stack.layers, path);
      assert HeldSomewhere(stack.layers, path, Lookup(Effective(stack.layers), path));
    } else {
      if path != [] { NoHolderNoValue(stack.layers, path); }
      forall i: nat ensures !Holds(stack.layers, i, path, Lookup(Effective(stack.layers), path)) {
        if Holds(stack.layers, i, path, Lookup(Effective(stack.layers), path)) {
          TopHolderIsHighest(stack.layers, path, i);
        }
      }
    }
  }

  /** The user layer can be blamed for overriding itself. When it is the highest layer with the path, this happens
      exactly when a layer above cuts the path off, or when the path leads to a table that the layers below add keys
      to. */
  lemma OverrideBlamesUserItself(stack: Stack, path: Path)
    requires Valid(stack) && ActiveUserLayer(stack).Some?
    requires TopHolder(stack.layers, path) == stack.userLayerIndex
    ensures var u := stack.userLayerIndex.value;
            var r := OverrideOf(stack, Effective(stack.layers), path);
            && (r.Some? <==> !Undisturbed(stack.layers, u, path))
            && (r.Some? ==> r.value.layer == stack.layers[u].Meta())
  {
    HolderSeenExactly(stack.layers, path);
  }

  lemma CutOffExample(user: Metadata, flags: Metadata)
    requires user.name.User? && flags.name.SessionFlags?
    ensures var one := Table(map["a" := Table(map["b" := Leaf(Integer(1))])]);
            var below := Layer(user.name, one, None, user.version, None);
            var above := Layer(flags.name, Table(map["a" := Leaf(Integer(5))]), None, flags.version, None);
            var stack := Stack([below, above], Some(0), None);
            && Valid(stack)
            && OverrideOf(stack, Effective(stack.layers), ["a", "b"]) == Some(Overridden(user, None))
  {
    var low := Table(map["a" := Table(map["b" := Leaf(Integer(1))])]);
    var high := Table(map["a" := Leaf(Integer(5))]);
    var below := Layer(user.name, low, None, user.version, None);
    var above := Layer(flags.name, high, None, flags.version, None);
    var layers := [below, above];
    var stack := Stack(layers, Some(0), None);
    assert layers[..1] == [below] && [below][..0] == [] && layers[1..] == [above] && [above][1..] == [];
    FilterNothing(layers, IsProjectLayer);
    assert LastUser(layers) == LastUser([below]) == Some(0);
    assert Effective([below]) == Merged(Table(map[]), low) == low;
    assert Effective(layers) == Merged(low, high);
    assert Merged(low, high).entries["a"] == Leaf(Integer(5));
    assert ["a", "b"][1..] == ["b"] && ["b"][1..] == [];
    assert Lookup(low, ["a", "b"]) == Lookup(low.entries["a"], ["b"]) == Lookup(Leaf(Integer(1)), []);
    assert Lookup(high, ["a", "b"]) == Lookup(Leaf(Integer(5)), ["b"]) == None;
    assert Lookup(Effective(layers), ["a", "b"]) == Lookup(Leaf(Integer(5)), ["b"]) == None;
    assert TopHolder(layers, ["a", "b"]) == TopHolder([below], ["a", "b"]) == Some(0);
  }

  // The flags take the value away, and the project layer below them is named.
  lemma TakenAwayExample(user: Metadata, project: Metadata, flags: Metadata)
    requires user.name.User? && project.name.Project? && flags.name.SessionFlags?
    ensures var one := Table(map["a" := Table(map["b" := Leaf(Integer(1))])]);
            var low := Layer(user.name, one, None, user.version, None);
            var two := Table(map["a" := Table(map["b" := Leaf(Integer(2))])]);
            var mid := Layer(project.name, two, None, project.version, None);
            var top := Layer(flags.name, Table(map["a" := Leaf(Integer(5))]), None, flags.version, None);
            var stack := Stack([low, mid, top], Some(0), None);
            && Valid(stack)
            && OverrideOf(stack, Effective(stack.layers), ["a", "b"]) == Some(Overridden(project, None))
  {
    var one := Table(map["a" := Table(map["b" := Leaf(Integer(1))])]);
    var two := Table(map["a" := Table(map["b" := Leaf(Integer(2))])]);
    var five := Table(map["a" := Leaf(Integer(5))]);
    var low := Layer(user.name, one, None, user.version, None);
    var mid := Layer(project.name, two, None, project.version, None);
    var top := Layer(flags.name, five, None, flags.version, None);
    var layers, path := [low, mid, top], ["a", "b"];
    var stack := Stack(layers, Some(0), None);
    OneProjectNested(low, mid, top);
    assert layers[..2] == [low, mid] && [low, mid][..1] == [low];
    assert LastUser(layers) == LastUser([low, mid]) == LastUser([low]) == Some(0);
    assert path[1..] == ["b"] && ["b"][1..] == [] && path[..1] == ["a"] && ["a"][1..] == [];
    assert Lookup(one, path) == Lookup(one.entries["a"], ["b"]) == Some(Leaf(Integer(1)));
    assert Lookup(two, path) == Lookup(two.entries["a"], ["b"]) == Some(Leaf(Integer(2)));
    assert Lookup(five, path) == Lookup(Leaf(Integer(5)), ["b"]) == None;
    assert TopHolder(layers, path) == TopHolder([low, mid], path) == Some(1);
    assert Lookup(five, ["a"]) == Some(Leaf(Integer(5)));
    assert Stops(two, five, path[..1]);
    assert CutAbove(layers, 1, path);
    HolderSeenExactly(layers, path);
  }

  lemma OneProjectNested(low: Layer, mid: Layer, top: Layer)
    requires !low.name.Project? && mid.name.Project? && !top.name.Project?
    ensures Nested([low, mid, top])
  {
    FilterNothing([low], IsProjectLayer);
    FilterAll([mid], IsProjectLayer);
    FilterNothing([top], IsProjectLayer);
    FilterConcat([low], [mid], IsProjectLayer);
    FilterConcat([low] + [mid], [top], IsProjectLayer);
    assert [low, mid, top] == [low] + [mid] + [top];
  }

  // A table above the user's array replaces it, although neither is a scalar.
  lemma ArrayCutOffExample(user: Metadata, flags: Metadata)
    requires user.name.User? && flags.name.SessionFlags?
    ensures var below := Layer(user.name, Table(map["a" := Array([Leaf(Integer(1))])]), None, user.version, None);
            var above := Layer(flags.name, Table(map["a" := Table(map[])]), None, flags.version, None);
            var stack := Stack([below, above], Some(0), None);
            && Valid(stack) && TopHolder(stack.layers, ["a", "0"]) == Some(0)
            && OverrideOf(stack, Effective(stack.layers), ["a", "0"]).Some?
            && OverrideOf(stack, Effective(stack.layers), ["a", "0"]).value.layer == user
  {
    var low := Table(map["a" := Array([Leaf(Integer(1))])]);
    var high := Table(map["a" := Table(map[])]);
    var below := Layer(user.name, low, None, user.version, None);
    var above := Layer(flags.name, high, None, flags.version, None);
    var layers, path := [below, above], ["a", "0"];
    var stack := Stack(layers, Some(0), None);
    assert layers[..1] == [below] && [below][..0] == [] && layers[1..] == [above] && [above][1..] == [];
    FilterNothing(layers, IsProjectLayer);
    assert LastUser(layers) == LastUser([below]) == Some(0);
    assert path[1..] == ["0"] && ["0"][1..] == [] && path[..1] == ["a"] && ["a"][1..] == [];
    ParseDecimal(0);
    assert Decimal(0) == "0";
    assert Lookup(low, path) == Lookup(low.entries["a"], ["0"]) == Lookup(Leaf(Integer(1)), []);
    assert Lookup(high, path) == Lookup(Table(map[]), ["0"]) == None;
    assert TopHolder(layers, path) == TopHolder([below], path) == Some(0);
    assert Lookup(high, ["a"]) == Some(Table(map[])) && Lookup(low, ["a"]) == Some(low.entries["a"]);
    assert Stops(low, high, path[..1]);
    assert CutAbove(layers, 0, path);
    OverrideBlamesUserItself(stack, path);
  }

  // Nothing lies above the user layer and nothing is cut off; a lower layer only adds a key to the same table.
  lemma MergedTableExample(system: Metadata, user: Metadata)
    requires system.name.System? && user.name.User?
    ensures var low := Table(map["a" := Table(map["x" := Leaf(Integer(1))])]);
            var high := Table(map["a" := Table(map["y" := Leaf(Integer(2))])]);
            var below := Layer(system.name, low, None, system.version, None);
            var above := Layer(user.name, high, None, user.version, None);
            var stack := Stack([below, above], Some(1), None);
            && Valid(stack) && TopHolder(stack.layers, ["a"]) == Some(1) && !CutAbove(stack.layers, 1, ["a"])
            && OverrideOf(stack, Effective(stack.layers), ["a"]).Some?
            && OverrideOf(stack, Effective(stack.layers), ["a"]).value.layer == user
  {
    var low := Table(map["a" := Table(map["x" := Leaf(Integer(1))])]);
    var high := Table(map["a" := Table(map["y" := Leaf(Integer(2))])]);
    var below := Layer(system.name, low, None, system.version, None);
    var above := Layer(user.name, high, None, user.version, None);
    var layers := [below, above];
    var stack := Stack(layers, Some(1), None);
    assert layers[..1] == [below] && [below][..0] == [] && layers[1..] == [above] && [above][1..] == [];
    FilterNothing(layers, IsProjectLayer);
    assert Effective(layers[..1]) == Merged(Table(map[]), low) == low;
    assert ["a"][1..] == [] && ["a"][..0] == [];
    assert Lookup(low, ["a"]) == Some(low.entries["a"]) && Lookup(high, ["a"]) == Some(high.entries["a"]);
    assert BothTables(low, high, ["a"]);
    assert !Covered(low.entries["a"], high.entries["a"]) by { assert "x" in low.entries["a"].entries; }
    OverrideBlamesUserItself(stack, ["a"]);
  }
}
