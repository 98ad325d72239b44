/** Deep merge of configuration trees: its path law and its algebra. */
module Merge {
  import opened Prelude
  import opened Toml

  // What `merge_toml_values` leaves in `base`.
  function Merged(base: Value, overlay: Value): Value
    decreases overlay
  {
    if base.Table? && overlay.Table? then
      Table(map k | k in base.entries.Keys + overlay.entries.Keys ::
        if k !in overlay.entries then base.entries[k]
        else if k in base.entries then Merged(base.entries[k], overlay.entries[k])
        else overlay.entries[k])
    else overlay
  }

  // The recursive update loop; overlay keys are visited in an arbitrary order.
  method MergeTomlValues(base: Value, overlay: Value) returns (merged: Value)
    ensures merged == Merged(base, overlay)
    decreases overlay
  {
    if !(base.Table? && overlay.Table?) { return overlay; }
    var table := base.entries;
    var todo := overlay.entries.Keys;
    while todo != {}
      invariant todo <= overlay.entries.Keys
      invariant table.Keys == base.entries.Keys + (overlay.entries.Keys - todo)
      invariant forall k :: k in todo && k in base.entries ==> table[k] == base.entries[k]
      invariant forall k :: k in table && k !in todo ==> table[k] == Merged(base, overlay).entries[k]
    {
      var key :| key in todo;
      if key in table {
        var child := MergeTomlValues(table[key], overlay.entries[key]);
        table := table[key := child];
      } else {
        table := table[key := overlay.entries[key]];
      }
      todo := todo - {key};
    }
    merged := Table(table);
    assert table == Merged(base, overlay).entries;
  }

  // Both trees hold tables at every prefix of the path, the path included.
  predicate BothTables(base: Value, overlay: Value, path: Path) {
    && IsTableAt(base, path) && IsTableAt(overlay, path)
    && forall n :: 0 <= n < |path| ==> IsTableAt(base, path[..n]) && IsTableAt(overlay, path[..n])
  }

  // The overlay's tables reach `path[..n]` together with the base's and do not mention the next key.
  predicate LeavesAlone(base: Value, overlay: Value, path: Path, n: nat) {
    n < |path| && BothTables(base, overlay, path[..n]) && Lookup(overlay, path[..n + 1]).None?
  }

  lemma BothTablesAtRoot(base: Value, overlay: Value, path: Path)
    ensures BothTables(base, overlay, path) ==> base.Table? && overlay.Table?
  {
    assert path[..0] == [];
    if BothTables(base, overlay, path) && path != [] { assert IsTableAt(base, path[..0]); }
  }

  lemma BothTablesStep(base: Value, overlay: Value, path: Path)
    requires base.Table? && overlay.Table? && path != []
    ensures BothTables(base, overlay, path) <==>
            path[0] in base.entries && path[0] in overlay.entries &&
            BothTables(base.entries[path[0]], overlay.entries[path[0]], path[1..])
  {
    var k := path[0];
    forall n | 0 < n <= |path|
      ensures path[..n][0] == k && path[..n][1..] == path[1..][..n - 1]
    {}
    if BothTables(base, overlay, path) {
      assert IsTableAt(base, path[..1]) && IsTableAt(overlay, path[..1]);
      forall n | 0 <= n <= |path[1..]|
        ensures IsTableAt(base.entries[k], path[1..][..n]) && IsTableAt(overlay.entries[k], path[1..][..n])
      {
        if n == |path[1..]| { assert path[..n + 1] == path; }
        assert IsTableAt(base, path[..n + 1]) && IsTableAt(overlay, path[..n + 1]);
        assert path[..n + 1][1..] == path[1..][..n];
      }
      assert path[1..][..|path[1..]|] == path[1..];
    } else if k in base.entries && k in overlay.entries
           && BothTables(base.entries[k], overlay.entries[k], path[1..]) {
      forall n | 0 <= n < |path|
        ensures IsTableAt(base, path[..n]) && IsTableAt(overlay, path[..n])
      {
        if n > 0 { assert path[..n][1..] == path[1..][..n - 1]; }
      }
    }
  }

  lemma LeavesAloneStep(base: Value, overlay: Value, path: Path, n: nat)
    requires base.Table? && overlay.Table?
    requires 0 < n < |path|
    ensures LeavesAlone(base, overlay, path, n) <==>
            path[0] in base.entries && path[0] in overlay.entries &&
            LeavesAlone(base.entries[path[0]], overlay.entries[path[0]], path[1..], n - 1)
  {
    BothTablesStep(base, overlay, path[..n]);
    assert path[..n][1..] == path[1..][..n - 1];
    assert path[..n + 1][1..] == path[1..][..n];
  }

  /** The full path law of deep merge. */
  lemma {:induction false} LookupMerged(base: Value, overlay: Value, path: Path)
    ensures Lookup(Merged(base, overlay), path) ==
            if BothTables(base, overlay, path) then
              Some(Merged(Lookup(base, path).value, Lookup(overlay, path).value))
            else if exists n: nat :: LeavesAlone(base, overlay, path, n) then Lookup(base, path)
            else Lookup(overlay, path)
    decreases path
  {
    if !(base.Table? && overlay.Table?) {
      BothTablesAtRoot(base, overlay, path);
      forall n: nat | n < |path| ensures !LeavesAlone(base, overlay, path, n) {
        BothTablesAtRoot(base, overlay, path[..n]);
      }
    } else if path == [] {
      assert path[..0] == [];
    } else {
      var k := path[0];
      BothTablesStep(base, overlay, path);
      assert path[..1] == [k] && path[..0] == [];
      assert Lookup(overlay, [k]).None? <==> k !in overlay.entries;
      assert LeavesAlone(base, overlay, path, 0) <==> k !in overlay.entries;
      forall n | 0 < n < |path| { LeavesAloneStep(base, overlay, path, n); }
      if k in base.entries && k in overlay.entries {
        LookupMerged(base.entries[k], overlay.entries[k], path[1..]);
        forall n: nat | LeavesAlone(base.entries[k], overlay.entries[k], path[1..], n)
          ensures LeavesAlone(base, overlay, path, n + 1)
        { LeavesAloneStep(base, overlay, path, n + 1); }
      }
    }
  }

  // Where the overlay has a value, a non-table wins outright and a table stays a table.
  lemma {:induction false} OverlayWins(base: Value, overlay: Value, path: Path)
    requires Lookup(overlay, path).Some?
    ensures Lookup(Merged(base, overlay), path).Some?
    ensures var own := Lookup(overlay, path).value;
            var merged := Lookup(Merged(base, overlay), path).value;
            if own.Table? then merged.Table? else merged == own
    decreases path
  {
    if path != [] && base.Table? && overlay.Table? && path[0] in base.entries {
      OverlayWins(base.entries[path[0]], overlay.entries[path[0]], path[1..]);
    }
  }

  // Where the overlay has nothing, the base value survives or is cut off; nothing new appears.
  lemma {:induction false} OverlaySilent(base: Value, overlay: Value, path: Path)
    requires Lookup(overlay, path).None?
    ensures Lookup(Merged(base, overlay), path) in {None, Lookup(base, path)}
    decreases path
  {
    if path != [] && base.Table? && overlay.Table?
       && path[0] in base.entries && path[0] in overlay.entries {
      OverlaySilent(base.entries[path[0]], overlay.entries[path[0]], path[1..]);
    }
  }

  // At this prefix the overlay puts a value that does not merge with the base's.
  predicate Stops(base: Value, overlay: Value, prefix: Path) {
    Lookup(overlay, prefix).Some? && !(IsTableAt(base, prefix) && IsTableAt(overlay, prefix))
  }

  // Somewhere strictly above the end of the path the overlay replaces what the base has.
  predicate CutsOff(base: Value, overlay: Value, path: Path) {
    exists n :: 0 <= n < |path| && Stops(base, overlay, path[..n])
  }

  lemma StopsBelow(base: Value, overlay: Value, path: Path, n: nat)
    requires 0 < n <= |path| && base.Table? && overlay.Table?
    requires path[0] in base.entries && path[0] in overlay.entries
    ensures Stops(base, overlay, path[..n]) <==>
            Stops(base.entries[path[0]], overlay.entries[path[0]], path[1..][..n - 1])
  {
    assert path[..n][1..] == path[1..][..n - 1];
  }

  lemma CutsOffBelow(base: Value, overlay: Value, path: Path)
    requires path != [] && base.Table? && overlay.Table?
    requires path[0] in base.entries && path[0] in overlay.entries
    ensures CutsOff(base, overlay, path) <==> CutsOff(base.entries[path[0]], overlay.entries[path[0]], path[1..])
  {
    var b, o, rest := base.entries[path[0]], overlay.entries[path[0]], path[1..];
    if CutsOff(base, overlay, path) {
      var n :| 0 <= n < |path| && Stops(base, overlay, path[..n]);
      assert n > 0;
      StopsBelow(base, overlay, path, n);
      assert Stops(b, o, rest[..n - 1]);
    }
    if CutsOff(b, o, rest) {
      var n :| 0 <= n < |rest| && Stops(b, o, rest[..n]);
      StopsBelow(base, overlay, path, n + 1);
      assert Stops(base, overlay, path[..n + 1]);
    }
  }

  lemma SilentPrefixes(base: Value, overlay: Value, path: Path)
    requires path != [] && base.Table? && overlay.Table? && path[0] !in overlay.entries
    ensures !CutsOff(base, overlay, path)
  {
    forall n | 0 <= n < |path| ensures !Stops(base, overlay, path[..n]) {
      if n > 0 { assert path[..n][0] == path[0]; }
    }
  }

  /** Where the overlay is silent, the base value survives exactly when the overlay does not cut the path off. */
  lemma {:induction false} SilentOverlay(base: Value, overlay: Value, path: Path)
    requires Lookup(overlay, path).None? && Lookup(base, path).Some?
    ensures Lookup(Merged(base, overlay), path) ==
            if CutsOff(base, overlay, path) then None else Lookup(base, path)
    decreases path
  {
    if !(base.Table? && overlay.Table?) {
      assert path[..0] == [] && Stops(base, overlay, path[..0]);
    } else if path[0] in overlay.entries {
      CutsOffBelow(base, overlay, path);
      SilentOverlay(base.entries[path[0]], overlay.entries[path[0]], path[1..]);
    } else {
      SilentPrefixes(base, overlay, path);
    }
  }

  // The two trees have tables at the same places strictly above the end of the path.
  predicate SameTables(a: Value, b: Value, path: Path) {
    forall n :: 0 <= n < |path| ==> (IsTableAt(a, path[..n]) <==> IsTableAt(b, path[..n]))
  }

  lemma PrefixFound(v: Value, path: Path, n: nat)
    requires n <= |path| && Lookup(v, path).Some?
    ensures Lookup(v, path[..n]).Some?
  {
    LookupConcat(v, path[..n], path[n..]);
    assert path[..n] + path[n..] == path;
  }

  lemma OverlayKeepsTables(base: Value, overlay: Value, path: Path)
    requires Lookup(overlay, path).Some?
    ensures SameTables(Merged(base, overlay), overlay, path)
  {
    forall n | 0 <= n < |path| ensures IsTableAt(Merged(base, overlay), path[..n]) <==> IsTableAt(overlay, path[..n]) {
      PrefixFound(overlay, path, n);
      OverlayWins(base, overlay, path[..n]);
    }
  }

  lemma SilentKeepsTables(base: Value, overlay: Value, path: Path)
    requires Lookup(overlay, path).None? && Lookup(base, path).Some? && !CutsOff(base, overlay, path)
    ensures SameTables(Merged(base, overlay), base, path)
  {
    SilentOverlay(base, overlay, path);
    forall n | 0 <= n < |path| ensures IsTableAt(Merged(base, overlay), path[..n]) <==> IsTableAt(base, path[..n]) {
      PrefixFound(Merged(base, overlay), path, n);
      assert !Stops(base, overlay, path[..n]);
      if Lookup(overlay, path[..n]).Some? {
        OverlayWins(base, overlay, path[..n]);
      } else {
        OverlaySilent(base, overlay, path[..n]);
      }
    }
  }

  lemma SameTablesCutAlike(a: Value, b: Value, overlay: Value, path: Path)
    requires SameTables(a, b, path)
    ensures CutsOff(a, overlay, path) <==> CutsOff(b, overlay, path)
  {
    assert forall n :: 0 <= n < |path| ==> (Stops(a, overlay, path[..n]) <==> Stops(b, overlay, path[..n]));
  }

  // Where the overlay has a value, it merges with the base's if tables lead there in both, and wins otherwise.
  lemma HeldMerged(base: Value, overlay: Value, path: Path)
    requires Lookup(overlay, path).Some?
    ensures Lookup(Merged(base, overlay), path) ==
            if BothTables(base, overlay, path) then Some(Merged(Lookup(base, path).value, Lookup(overlay, path).value))
            else Lookup(overlay, path)
  {
    LookupMerged(base, overlay, path);
    forall n: nat | n < |path| ensures !LeavesAlone(base, overlay, path, n) { PrefixFound(overlay, path, n + 1); }
  }

  lemma {:induction false} MergeIdempotent(v: Value)
    ensures Merged(v, v) == v
    decreases v
  {
    if v.Table? {
      forall k | k in v.entries ensures Merged(v.entries[k], v.entries[k]) == v.entries[k] {
        MergeIdempotent(v.entries[k]);
      }
      assert Merged(v, v).entries == v.entries;
    }
  }

  // `under` adds nothing to `over`: every key it has is there, recursively where both are tables.
  predicate Covered(under: Value, over: Value)
    decreases over
  {
    under.Table? && over.Table? ==>
      forall k :: k in under.entries ==>
        k in over.entries && Covered(under.entries[k], over.entries[k])
  }

  lemma {:induction false} MergeIsOverlay(base: Value, overlay: Value)
    ensures Merged(base, overlay) == overlay <==> Covered(base, overlay)
    decreases overlay
  {
    if base.Table? && overlay.Table? {
      var m := Merged(base, overlay).entries;
      forall k | k in base.entries && k in overlay.entries
        ensures m[k] == overlay.entries[k] <==> Covered(base.entries[k], overlay.entries[k])
      {
        MergeIsOverlay(base.entries[k], overlay.entries[k]);
      }
      if Covered(base, overlay) {
        assert m.Keys == overlay.entries.Keys;
        assert m == overlay.entries;
      } else {
        var k :| k in base.entries && !(k in overlay.entries && Covered(base.entries[k], overlay.entries[k]));
        assert k in m;
      }
    }
  }

  lemma {:induction false} MergeAbsorbs(base: Value, overlay: Value)
    ensures Merged(Merged(base, overlay), overlay) == Merged(base, overlay)
    decreases overlay
  {
    if base.Table? && overlay.Table? {
      var m := Merged(base, overlay);
      forall k | k in overlay.entries
        ensures Merged(m.entries[k], overlay.entries[k]) == m.entries[k]
      {
        if k in base.entries {
          MergeAbsorbs(base.entries[k], overlay.entries[k]);
        } else {
          MergeIdempotent(overlay.entries[k]);
        }
      }
      assert Merged(m, overlay).entries == m.entries;
    } else {
      MergeIdempotent(overlay);
    }
  }

  // No place where `b` cuts off a table of `a` that `c` would bring back, unless `c` repeats it anyway.
  predicate Associable(a: Value, b: Value, c: Value)
    decreases c
  {
    if a.Table? && !b.Table? && c.Table? then Covered(a, c)
    else if a.Table? && b.Table? && c.Table? then
      forall k :: k in a.entries && k in b.entries && k in c.entries ==>
        Associable(a.entries[k], b.entries[k], c.entries[k])
    else true
  }

  /** Deep merge associates on exactly the associable triples. */
  lemma {:induction false} MergeAssociative(a: Value, b: Value, c: Value)
    ensures Merged(Merged(a, b), c) == Merged(a, Merged(b, c)) <==> Associable(a, b, c)
    decreases c
  {
    if a.Table? && !b.Table? && c.Table? {
      MergeIsOverlay(a, c);
    } else if a.Table? && b.Table? && c.Table? {
      var l, r := Merged(Merged(a, b), c).entries, Merged(a, Merged(b, c)).entries;
      assert l.Keys == r.Keys;
      forall k | k in l
        ensures l[k] == r[k] <==>
          (k in a.entries && k in b.entries && k in c.entries ==>
             Associable(a.entries[k], b.entries[k], c.entries[k]))
      {
        if k in a.entries && k in b.entries && k in c.entries {
          MergeAssociative(a.entries[k], b.entries[k], c.entries[k]);
        }
      }
      if Associable(a, b, c) { assert l == r; }
      else {
        var k :| k in a.entries && k in b.entries && k in c.entries
              && !Associable(a.entries[k], b.entries[k], c.entries[k]);
        assert k in l && l[k] != r[k];
      }
    }
  }

  // No path through common tables holds a table, a non-table and a table in turn.
  ghost predicate NoTableRevival(a: Value, b: Value, c: Value) {
    forall p :: IsTableAt(a, p) && IsTableAt(c, p) && Lookup(b, p).Some? ==> IsTableAt(b, p)
  }

  lemma {:induction false} NoRevivalAssociable(a: Value, b: Value, c: Value)
    requires NoTableRevival(a, b, c)
    ensures Associable(a, b, c)
    decreases c
  {
    if a.Table? && c.Table? {
      assert IsTableAt(c, []);
      assert b.Table?;
      forall k | k in a.entries && k in b.entries && k in c.entries
        ensures Associable(a.entries[k], b.entries[k], c.entries[k])
      {
        forall p | IsTableAt(a.entries[k], p) && IsTableAt(c.entries[k], p) && Lookup(b.entries[k], p).Some?
          ensures IsTableAt(b.entries[k], p)
        {
          assert ([k] + p)[1..] == p;
          assert IsTableAt(c, [k] + p);
        }
        NoRevivalAssociable(a.entries[k], b.entries[k], c.entries[k]);
      }
    }
  }

  /** Deep merge is associative whenever no path holds a table, a non-table and a table in turn. */
  lemma MergeAssociativeWithoutRevival(a: Value, b: Value, c: Value)
    requires NoTableRevival(a, b, c)
    ensures Merged(Merged(a, b), c) == Merged(a, Merged(b, c))
  {
    NoRevivalAssociable(a, b, c);
    MergeAssociative(a, b, c);
  }

  // A table cut off by a scalar and brought back by a table: the two ways of merging differ.
  lemma RevivedTableExample()
    ensures var a := Table(map["k" := Table(map["x" := Leaf(Integer(1))])]);
            var b := Table(map["k" := Leaf(Integer(2))]);
            var c := Table(map["k" := Table(map[])]);
            Merged(Merged(a, b), c) != Merged(a, Merged(b, c))
  {
    var a := Table(map["k" := Table(map["x" := Leaf(Integer(1))])]);
    var b := Table(map["k" := Leaf(Integer(2))]);
    var c := Table(map["k" := Table(map[])]);
    assert !Covered(a.entries["k"], c.entries["k"]) by { assert "x" in a.entries["k"].entries; }
    assert !Associable(a, b, c);
    MergeAssociative(a, b, c);
  }
}
