/**
Layered configuration: the deduplicated chain of files and the deep merge.

`Merge` gives the meaning of the in-place `_deep_merge`; the laws about it are
proved here, and the two mutating algorithms are proved against it in module
`LayeredLoad`.
*/
module LayeredConfig {
  import opened Wrappers

  type Key = string

  /** A parsed YAML value. Everything that is neither null nor a mapping is a leaf. */
  datatype Config = Null | Leaf(value: string) | Dict(entries: map<Key, Config>)

  const EMPTY_DICT: Config := Dict(map[])

  function Get(entries: map<Key, Config>, k: Key): Option<Config> {
    if k in entries then Some(entries[k]) else None
  }

  /** The mapping that an overlay mapping is merged into at a key that holds `base`. */
  function DictOr(base: Option<Config>): (d: Config)
    ensures d.Dict?
  {
    if base.Some? && base.value.Dict? then base.value else EMPTY_DICT
  }

  /** What a key holds after an overlay value for it is applied. */
  function Combine(base: Option<Config>, overlay: Config): Option<Config>
    decreases overlay, 1
  {
    match overlay
    case Null => None
    case Leaf(_) => Some(overlay)
    case Dict(_) => Some(Merge(DictOr(base), overlay))
  }

  /** The last-wins deep merge of `overlay` onto `base`. */
  function Merge(base: Config, overlay: Config): (r: Config)
    requires base.Dict? && overlay.Dict?
    ensures r.Dict?
    decreases overlay, 0
  {
    var b, o := base.entries, overlay.entries;
    var kept := map k | k in b && k !in o :: b[k];
    var changed := map k | k in o && !o[k].Null? :: Combine(Get(b, k), o[k]).value;
    Dict(kept + changed)
  }

  function Apply(base: Option<Config>, overlay: Option<Config>): Option<Config> {
    if overlay.None? then base else Combine(base, overlay.value)
  }

  lemma MergeEntry(base: Config, overlay: Config, k: Key)
    requires base.Dict? && overlay.Dict?
    ensures Get(Merge(base, overlay).entries, k) == Apply(Get(base.entries, k), Get(overlay.entries, k))
  {
  }

  /** Layers merged one after another, lowest priority first. */
  function MergeAll(base: Config, layers: seq<Config>): (r: Config)
    requires base.Dict? && forall l :: l in layers ==> l.Dict?
    ensures r.Dict?
    decreases |layers|
  {
    if layers == [] then base else MergeAll(Merge(base, layers[0]), layers[1..])
  }

  lemma {:induction false} MergeAllAppend(base: Config, gs: seq<Config>, hs: seq<Config>)
    requires base.Dict? && forall l :: l in gs + hs ==> l.Dict?
    ensures (forall l :: l in gs ==> l.Dict?) && (forall l :: l in hs ==> l.Dict?)
    ensures MergeAll(base, gs + hs) == MergeAll(MergeAll(base, gs), hs)
    decreases |gs|
  {
    assert forall l :: l in gs ==> l in gs + hs;
    assert forall l :: l in hs ==> l in gs + hs;
    if gs == [] {
      assert gs + hs == hs;
    } else {
      assert (gs + hs)[1..] == gs[1..] + hs;
      MergeAllAppend(Merge(base, gs[0]), gs[1..], hs);
    }
  }

  // ------------------------------------------------------------ one key at a time

  function At(layers: seq<Config>, k: Key): seq<Option<Config>>
    requires forall l :: l in layers ==> l.Dict?
  {
    seq(|layers|, i requires 0 <= i < |layers| => assert layers[i] in layers; Get(layers[i].entries, k))
  }

  function ApplyAll(base: Option<Config>, overlays: seq<Option<Config>>): Option<Config>
    decreases |overlays|
  {
    if overlays == [] then base else ApplyAll(Apply(base, overlays[0]), overlays[1..])
  }

  lemma {:induction false} MergeAllEntry(base: Config, layers: seq<Config>, k: Key)
    requires base.Dict? && forall l :: l in layers ==> l.Dict?
    ensures Get(MergeAll(base, layers).entries, k) == ApplyAll(Get(base.entries, k), At(layers, k))
    decreases |layers|
  {
    if layers != [] {
      assert At(layers, k)[1..] == At(layers[1..], k);
      MergeEntry(base, layers[0], k);
      MergeAllEntry(Merge(base, layers[0]), layers[1..], k);
    }
  }

  lemma SameEntries(a: Config, b: Config)
    requires a.Dict? && b.Dict? && forall k :: Get(a.entries, k) == Get(b.entries, k)
    ensures a == b
  {
    forall k ensures k in a.entries <==> k in b.entries {
      assert Get(a.entries, k) == Get(b.entries, k);
    }
    forall k | k in a.entries ensures a.entries[k] == b.entries[k] {
      assert Get(a.entries, k) == Get(b.entries, k);
    }
    assert a.entries == b.entries;
  }

  // ------------------------------------------------------------ dropping a duplicate layer

  /** Applying a layer again later makes its earlier application invisible:
      merge `a`, then any layers `gs`, then `a` is merge `gs`, then `a`. */
  lemma {:induction false} EarlierDuplicateInvisible(base: Config, a: Config, gs: seq<Config>)
    requires base.Dict? && a.Dict? && forall g :: g in gs ==> g.Dict?
    ensures Merge(MergeAll(Merge(base, a), gs), a) == Merge(MergeAll(base, gs), a)
    decreases a, 0
  {
    var left, right := MergeAll(Merge(base, a), gs), MergeAll(base, gs);
    forall k ensures Get(Merge(left, a).entries, k) == Get(Merge(right, a).entries, k) {
      MergeEntry(left, a, k);
      MergeEntry(right, a, k);
      MergeEntry(base, a, k);
      MergeAllEntry(Merge(base, a), gs, k);
      MergeAllEntry(base, gs, k);
      if k in a.entries {
        var x := Get(base.entries, k);
        KeyAbsorbs(x, a.entries[k], [], Combine(x, a.entries[k]), x, At(gs, k));
      }
    }
    SameEntries(Merge(left, a), Merge(right, a));
  }

  /** The same law at one key. `y` and `z` are what the key holds with and
      without the earlier application, after the mappings `ds` were merged in. */
  lemma {:induction false} KeyAbsorbs(x: Option<Config>, a: Config, ds: seq<Config>,
                                      y: Option<Config>, z: Option<Config>, os: seq<Option<Config>>)
    requires forall d :: d in ds ==> d.Dict?
    requires a.Dict? ==> DictOr(y) == MergeAll(Merge(DictOr(x), a), ds) && DictOr(z) == MergeAll(DictOr(x), ds)
    ensures Combine(ApplyAll(y, os), a) == Combine(ApplyAll(z, os), a)
    decreases a, 1 + |os|
  {
    if a.Dict? {
      if os == [] {
        EarlierDuplicateInvisible(DictOr(x), a, ds);
      } else if os[0] == None {
        KeyAbsorbs(x, a, ds, y, z, os[1..]);
      } else if os[0].value.Dict? {
        var d := os[0].value;
        MergeAllAppend(Merge(DictOr(x), a), ds, [d]);
        MergeAllAppend(DictOr(x), ds, [d]);
        KeyAbsorbs(x, a, ds + [d], Apply(y, os[0]), Apply(z, os[0]), os[1..]);
      }
    }
  }

  // ------------------------------------------------------------ the chain of files

  type Path = string

  /** What reading a file gives; only a mapping contributes a layer. */
  datatype Loaded = Unreadable | Empty | NotMapping | Mapping(entries: map<Key, Config>)

  function Layers(files: Path -> Loaded, paths: seq<Path>): (layers: seq<Config>)
    ensures forall l :: l in layers ==> l.Dict?
  {
    if paths == [] then [] else
      (match files(paths[0])
       case Mapping(entries) => [Dict(entries)]
       case _ => []) + Layers(files, paths[1..])
  }

  /** All occurrences but the last of each path removed, order kept. */
  function KeepLast(paths: seq<Path>): seq<Path> {
    if paths == [] then []
    else if paths[0] in paths[1..] then KeepLast(paths[1..])
    else [paths[0]] + KeepLast(paths[1..])
  }

  function LoadAll(files: Path -> Loaded, paths: seq<Path>): Config {
    MergeAll(EMPTY_DICT, Layers(files, paths))
  }

  lemma {:induction false} LayersSplit(files: Path -> Loaded, before: seq<Path>, after: seq<Path>)
    ensures Layers(files, before + after) == Layers(files, before) + Layers(files, after)
  {
    if before == [] {
      assert before + after == after;
    } else {
      assert (before + after)[1..] == before[1..] + after;
      LayersSplit(files, before[1..], after);
    }
  }

  /** A layer that comes again later may be skipped. */
  lemma SkipEarlier(base: Config, a: Config, layers: seq<Config>)
    requires base.Dict? && a in layers && forall l :: l in layers ==> l.Dict?
    ensures MergeAll(Merge(base, a), layers) == MergeAll(base, layers)
  {
    var i :| 0 <= i < |layers| && layers[i] == a;
    var gs, hs := layers[..i], layers[i + 1..];
    assert layers == gs + ([a] + hs);
    assert forall g :: g in gs ==> g in layers;
    assert forall h :: h in [a] + hs ==> h in layers;
    MergeAllAppend(Merge(base, a), gs, [a] + hs);
    MergeAllAppend(base, gs, [a] + hs);
    EarlierDuplicateInvisible(base, a, gs);
    assert ([a] + hs)[1..] == hs;
  }

  lemma {:induction false} DedupInvisibleFrom(files: Path -> Loaded, base: Config, paths: seq<Path>)
    requires base.Dict?
    ensures MergeAll(base, Layers(files, KeepLast(paths))) == MergeAll(base, Layers(files, paths))
    decreases |paths|
  {
    if paths != [] {
      var first, rest := paths[0], paths[1..];
      var own := Layers(files, [first]);
      assert Layers(files, [first][1..]) == [];
      assert own == match files(first) case Mapping(entries) => [Dict(entries)] case _ => [];
      assert paths == [first] + rest;
      LayersSplit(files, [first], rest);
      MergeAllAppend(base, own, Layers(files, rest));
      DedupInvisibleFrom(files, MergeAll(base, own), rest);
      if first in rest {
        DedupInvisibleFrom(files, base, rest);
        if own != [] {
          LayerPresent(files, first, rest);
          SkipEarlier(base, own[0], Layers(files, rest));
        }
      } else {
        LayersSplit(files, [first], KeepLast(rest));
        MergeAllAppend(base, own, Layers(files, KeepLast(rest)));
      }
    }
  }

  lemma LayerPresent(files: Path -> Loaded, p: Path, paths: seq<Path>)
    requires p in paths && files(p).Mapping?
    ensures Dict(files(p).entries) in Layers(files, paths)
  {
  }

  /** Keeping only the highest-priority occurrence of every file never changes
      the merged configuration, whatever the files hold. */
  lemma DedupInvisible(files: Path -> Loaded, paths: seq<Path>)
    ensures LoadAll(files, KeepLast(paths)) == LoadAll(files, paths)
  {
    DedupInvisibleFrom(files, EMPTY_DICT, paths);
  }

  // ------------------------------------------------------------ lookup by priority

  /** What a layer holds at a path of keys. */
  function Lookup(c: Config, path: seq<Key>): Option<Config> {
    if path == [] then Some(c)
    else if c.Dict? && path[0] in c.entries then Lookup(c.entries[path[0]], path[1..])
    else None
  }

  predicate LeafAt(c: Config, path: seq<Key>, v: string) {
    Lookup(c, path) == Some(Leaf(v))
  }

  predicate MapAt(c: Config, path: seq<Key>) {
    Lookup(c, path).Some? && Lookup(c, path).value.Dict?
  }

  /** The layer has a leaf or a null at `path` or at a prefix of it. */
  ghost predicate Blocks(layer: Config, path: seq<Key>) {
    exists n :: 0 <= n <= |path| && Lookup(layer, path[..n]).Some? && !Lookup(layer, path[..n]).value.Dict?
  }

  /** The layer settles `path` itself: it has a leaf or a null at the path or at a
      prefix of it, or a mapping at the path. */
  ghost predicate Settles(layer: Config, path: seq<Key>) {
    MapAt(layer, path) || Blocks(layer, path)
  }

  lemma LookupUnder(layer: Config, path: seq<Key>, n: nat)
    requires layer.Dict? && 0 < n <= |path|
    ensures Lookup(layer, path[..n]) ==
            if path[0] in layer.entries then Lookup(layer.entries[path[0]], path[1..][..n - 1]) else None
  {
    assert path[..n][1..] == path[1..][..n - 1];
  }

  lemma {:induction false} BlocksUnder(layer: Config, path: seq<Key>)
    requires layer.Dict? && path != []
    ensures Blocks(layer, path) <==> path[0] in layer.entries && Blocks(layer.entries[path[0]], path[1..])
  {
    var k, tail := path[0], path[1..];
    if Blocks(layer, path) {
      var n :| 0 <= n <= |path| && Lookup(layer, path[..n]).Some? && !Lookup(layer, path[..n]).value.Dict?;
      assert n > 0;
      LookupUnder(layer, path, n);
      var m := n - 1;
      assert Lookup(layer.entries[k], tail[..m]) == Lookup(layer, path[..n]);
    }
    if k in layer.entries && Blocks(layer.entries[k], tail) {
      var sub := layer.entries[k];
      var m :| 0 <= m <= |tail| && Lookup(sub, tail[..m]).Some? && !Lookup(sub, tail[..m]).value.Dict?;
      LookupUnder(layer, path, m + 1);
      assert Lookup(layer, path[..m + 1]) == Lookup(sub, tail[..m]);
    }
  }

  lemma NoMappingBlocks(layer: Config, path: seq<Key>)
    requires !layer.Dict?
    ensures Blocks(layer, path)
  {
    assert Lookup(layer, path[..0]) == Some(layer);
  }

  lemma SettlesUnder(layer: Config, path: seq<Key>)
    requires layer.Dict? && path != []
    ensures Settles(layer, path) <==>
            path[0] in layer.entries &&
            (!layer.entries[path[0]].Dict? || Settles(layer.entries[path[0]], path[1..]))
  {
    BlocksUnder(layer, path);
    if path[0] in layer.entries && !layer.entries[path[0]].Dict? {
      NoMappingBlocks(layer.entries[path[0]], path[1..]);
    }
  }

  /** One merge: a leaf comes from the overlay, or from the base where the overlay leaves it alone. */
  lemma {:induction false} MergeLookup(base: Config, overlay: Config, path: seq<Key>, v: string)
    requires base.Dict? && overlay.Dict?
    ensures LeafAt(Merge(base, overlay), path, v) <==>
            LeafAt(overlay, path, v) || (LeafAt(base, path, v) && !Settles(overlay, path))
    decreases |path|
  {
    if path != [] {
      var k, tail := path[0], path[1..];
      MergeEntry(base, overlay, k);
      SettlesUnder(overlay, path);
      assert Lookup(overlay, path) == if k in overlay.entries then Lookup(overlay.entries[k], tail) else None;
      assert Lookup(base, path) == if k in base.entries then Lookup(base.entries[k], tail) else None;
      if k !in overlay.entries {
        assert !Settles(overlay, path);
      } else if !overlay.entries[k].Dict? {
        assert Settles(overlay, path);
      } else {
        var under := Get(base.entries, k);
        assert Get(Merge(base, overlay).entries, k) == Some(Merge(DictOr(under), overlay.entries[k]));
        MergeLookup(DictOr(under), overlay.entries[k], tail, v);
        if under == None || !under.value.Dict? {
          EmptyHasNoLeaf(tail, v);
          LeafNeedsSettling(under, overlay.entries[k], tail, v);
        }
      }
    }
  }

  lemma EmptyHasNoLeaf(path: seq<Key>, v: string)
    ensures !LeafAt(EMPTY_DICT, path, v)
  {
  }

  /** Where the base holds a leaf, a mapping in the overlay settles the matter. */
  lemma LeafNeedsSettling(base: Option<Config>, overlay: Config, path: seq<Key>, v: string)
    requires overlay.Dict? && (base.Some? ==> !base.value.Dict?)
    ensures base.Some? && LeafAt(base.value, path, v) ==> Settles(overlay, path)
  {
    if path == [] { assert Lookup(overlay, path) == Some(overlay); }
  }

  /** The merged configuration has leaf `v` at `path` exactly when some layer has
      it there and no higher layer settles that path. */
  lemma {:induction false} PriorityDecides(layers: seq<Config>, path: seq<Key>, v: string)
    requires forall l :: l in layers ==> l.Dict?
    ensures LeafAt(MergeAll(EMPTY_DICT, layers), path, v) <==>
            exists i :: 0 <= i < |layers| && LeafAt(layers[i], path, v) &&
                        forall j :: i < j < |layers| ==> !Settles(layers[j], path)
  {
    if layers == [] {
      EmptyHasNoLeaf(path, v);
    } else {
      var n := |layers| - 1;
      var lower, top := layers[..n], layers[n];
      assert layers == lower + [top];
      MergeAllAppend(EMPTY_DICT, lower, [top]);
      PriorityDecides(lower, path, v);
      MergeLookup(MergeAll(EMPTY_DICT, lower), top, path, v);
      if LeafAt(top, path, v) {
        assert LeafAt(layers[n], path, v);
      } else if LeafAt(MergeAll(EMPTY_DICT, layers), path, v) {
        var i :| 0 <= i < n && LeafAt(lower[i], path, v) && forall j :: i < j < n ==> !Settles(lower[j], path);
        assert LeafAt(layers[i], path, v) && forall j :: i < j < |layers| ==> !Settles(layers[j], path);
      }
      if i :| 0 <= i < |layers| && LeafAt(layers[i], path, v) && forall j :: i < j < |layers| ==> !Settles(layers[j], path) {
        if i < n {
          assert LeafAt(lower[i], path, v) && forall j :: i < j < n ==> !Settles(lower[j], path);
        }
      }
    }
  }

  // ------------------------------------------------------------ mappings by priority

  /** One merge: a mapping stands at a path exactly when the overlay has one there, or the
      base has one and the overlay has no leaf or null at the path or at a prefix of it. */
  lemma {:induction false} MergeMappings(base: Config, overlay: Config, path: seq<Key>)
    requires base.Dict? && overlay.Dict?
    ensures MapAt(Merge(base, overlay), path) <==>
            MapAt(overlay, path) || (MapAt(base, path) && !Blocks(overlay, path))
    decreases |path|
  {
    if path != [] {
      var k, tail := path[0], path[1..];
      MergeEntry(base, overlay, k);
      BlocksUnder(overlay, path);
      assert Lookup(overlay, path) == if k in overlay.entries then Lookup(overlay.entries[k], tail) else None;
      assert Lookup(base, path) == if k in base.entries then Lookup(base.entries[k], tail) else None;
      if k in overlay.entries && !overlay.entries[k].Dict? {
        NoMappingBlocks(overlay.entries[k], tail);
      } else if k in overlay.entries {
        var under := Get(base.entries, k);
        assert Get(Merge(base, overlay).entries, k) == Some(Merge(DictOr(under), overlay.entries[k]));
        MergeMappings(DictOr(under), overlay.entries[k], tail);
      }
    }
  }

  /** Layer `i` has a mapping at the path and no higher one has a leaf or null at it or at a prefix. */
  ghost predicate MapFrom(layers: seq<Config>, path: seq<Key>, i: nat)
    requires i < |layers|
  {
    MapAt(layers[i], path) && forall j :: i < j < |layers| ==> !Blocks(layers[j], path)
  }

  lemma MapFromUnder(layers: seq<Config>, top: Config, path: seq<Key>, i: nat)
    requires i < |layers|
    ensures MapFrom(layers + [top], path, i) <==> MapFrom(layers, path, i) && !Blocks(top, path)
  {
    var all := layers + [top];
    assert all[|layers|] == top;
    assert forall j :: 0 <= j < |layers| ==> all[j] == layers[j];
  }

  /** The merged configuration has a mapping at a path exactly when some layer has one
      there and no higher layer has a leaf or null at the path or at a prefix of it; the
      lowest layer counts as the base. A mapping that is left empty stays a mapping. */
  lemma {:induction false} MappingsByPriority(layers: seq<Config>, path: seq<Key>)
    requires layers != [] && forall l :: l in layers ==> l.Dict?
    ensures MapAt(MergeAll(layers[0], layers[1..]), path) <==> exists i :: 0 <= i < |layers| && MapFrom(layers, path, i)
  {
    if |layers| == 1 {
      assert MapFrom(layers, path, 0) <==> MapAt(layers[0], path);
    } else {
      var lower, top := layers[..|layers| - 1], layers[|layers| - 1];
      assert layers == lower + [top] && layers[1..] == lower[1..] + [top] && lower[0] == layers[0];
      assert forall l :: l in lower ==> l in layers;
      MergeAllAppend(layers[0], lower[1..], [top]);
      assert [top][1..] == [];
      MappingsByPriority(lower, path);
      MergeMappings(MergeAll(lower[0], lower[1..]), top, path);
      forall i | 0 <= i < |lower| ensures MapFrom(layers, path, i) <==> MapFrom(lower, path, i) && !Blocks(top, path) {
        MapFromUnder(lower, top, path, i);
      }
      assert MapFrom(layers, path, |lower|) <==> MapAt(top, path);
    }
  }

  /** A null of the base stays where the overlay does not settle the path; nothing else leaves one. */
  lemma {:induction false} MergeNulls(base: Config, overlay: Config, path: seq<Key>)
    requires base.Dict? && overlay.Dict?
    ensures Lookup(Merge(base, overlay), path) == Some(Null) <==>
            Lookup(base, path) == Some(Null) && !Settles(overlay, path)
    decreases |path|
  {
    if path != [] {
      var k, tail := path[0], path[1..];
      MergeEntry(base, overlay, k);
      SettlesUnder(overlay, path);
      assert Lookup(base, path) == if k in base.entries then Lookup(base.entries[k], tail) else None;
      if k in overlay.entries && overlay.entries[k].Dict? {
        var under := Get(base.entries, k);
        assert Get(Merge(base, overlay).entries, k) == Some(Merge(DictOr(under), overlay.entries[k]));
        MergeNulls(DictOr(under), overlay.entries[k], tail);
        if tail == [] { assert Lookup(overlay.entries[k], tail) == Some(overlay.entries[k]); }
      }
    }
  }

  /** Both hold the same leaf, a mapping, a null, or nothing at the path. */
  ghost predicate SameAt(a: Config, b: Config, path: seq<Key>) {
    && (MapAt(a, path) <==> MapAt(b, path))
    && (Lookup(a, path) == Some(Null) <==> Lookup(b, path) == Some(Null))
    && (forall v :: LeafAt(a, path, v) <==> LeafAt(b, path, v))
  }

  lemma OneKey(c: Config, k: Key, path: seq<Key>)
    requires c.Dict?
    ensures Lookup(c, [k] + path) == if k in c.entries then Lookup(c.entries[k], path) else None
  {
    assert ([k] + path)[1..] == path;
  }

  lemma SameKey(a: Config, b: Config, k: Key)
    requires a.Dict? && b.Dict? && SameAt(a, b, [k] + [])
    ensures k in a.entries <==> k in b.entries
  {
    OneKey(a, k, []);
    OneKey(b, k, []);
    if k in a.entries && a.entries[k].Leaf? { assert LeafAt(a, [k] + [], a.entries[k].value); }
    if k in b.entries && b.entries[k].Leaf? { assert LeafAt(b, [k] + [], b.entries[k].value); }
  }

  lemma SameUnder(a: Config, b: Config, k: Key, path: seq<Key>)
    requires a.Dict? && b.Dict? && k in a.entries && k in b.entries && SameAt(a, b, [k] + path)
    ensures SameAt(a.entries[k], b.entries[k], path)
  {
    OneKey(a, k, path);
    OneKey(b, k, path);
    forall v ensures LeafAt(a.entries[k], path, v) <==> LeafAt(b.entries[k], path, v) {
      assert LeafAt(a, [k] + path, v) <==> LeafAt(b, [k] + path, v);
    }
  }

  /** Values that agree at every path are the same. */
  lemma {:induction false} SameEverywhere(a: Config, b: Config)
    requires forall path: seq<Key> :: SameAt(a, b, path)
    ensures a == b
    decreases a
  {
    assert SameAt(a, b, []);
    match a
    case Null =>
    case Leaf(v) => assert LeafAt(a, [], v);
    case Dict(entries) =>
      forall k ensures Get(a.entries, k) == Get(b.entries, k) {
        SameKey(a, b, k);
        if k in a.entries {
          forall path: seq<Key> ensures SameAt(a.entries[k], b.entries[k], path) { SameUnder(a, b, k, path); }
          SameEverywhere(a.entries[k], b.entries[k]);
        }
      }
      SameEntries(a, b);
  }

  /** What `r` holds at a path is what a merge of both sides holds there. */
  ghost predicate MergedAt(base: Config, overlay: Config, r: Config, path: seq<Key>) {
    && (MapAt(r, path) <==> MapAt(overlay, path) || (MapAt(base, path) && !Blocks(overlay, path)))
    && (Lookup(r, path) == Some(Null) <==> Lookup(base, path) == Some(Null) && !Settles(overlay, path))
    && (forall v :: LeafAt(r, path, v) <==> LeafAt(overlay, path, v) || (LeafAt(base, path, v) && !Settles(overlay, path)))
  }

  lemma MergeMergedAt(base: Config, overlay: Config, path: seq<Key>)
    requires base.Dict? && overlay.Dict?
    ensures MergedAt(base, overlay, Merge(base, overlay), path)
  {
    MergeMappings(base, overlay, path);
    MergeNulls(base, overlay, path);
    forall v ensures LeafAt(Merge(base, overlay), path, v) <==>
                     LeafAt(overlay, path, v) || (LeafAt(base, path, v) && !Settles(overlay, path)) {
      MergeLookup(base, overlay, path, v);
    }
  }

  lemma MergedSame(base: Config, overlay: Config, q: Config, r: Config, path: seq<Key>)
    requires MergedAt(base, overlay, q, path) && MergedAt(base, overlay, r, path)
    ensures SameAt(q, r, path)
  {
  }

  /** The deep merge is the one value that holds at every path the leaf, the mapping or
      the null that priority gives it: no other result is a deep merge. */
  lemma MergeIsTheOnlyOne(base: Config, overlay: Config, r: Config)
    requires base.Dict? && overlay.Dict?
    ensures (forall path: seq<Key> :: MergedAt(base, overlay, r, path)) <==> r == Merge(base, overlay)
  {
    forall path: seq<Key> ensures MergedAt(base, overlay, Merge(base, overlay), path) {
      MergeMergedAt(base, overlay, path);
    }
    if forall path: seq<Key> :: MergedAt(base, overlay, r, path) {
      forall path: seq<Key> ensures SameAt(r, Merge(base, overlay), path) {
        MergedSame(base, overlay, r, Merge(base, overlay), path);
      }
      SameEverywhere(r, Merge(base, overlay));
    }
  }

  // ------------------------------------------------------------ nulls only delete

  predicate NullFree(c: Config) {
    c.Dict? ==> forall k :: k in c.entries ==> !c.entries[k].Null? && NullFree(c.entries[k])
  }

  lemma {:induction false} MergeNullFree(base: Config, overlay: Config)
    requires base.Dict? && overlay.Dict? && NullFree(base)
    ensures NullFree(Merge(base, overlay))
    decreases overlay
  {
    forall k | k in Merge(base, overlay).entries
      ensures !Merge(base, overlay).entries[k].Null? && NullFree(Merge(base, overlay).entries[k])
    {
      MergeEntry(base, overlay, k);
      if k in overlay.entries && overlay.entries[k].Dict? {
        MergeNullFree(DictOr(Get(base.entries, k)), overlay.entries[k]);
      }
    }
  }

  /** The merged configuration holds no null at any mapping position. */
  lemma {:induction false} MergeAllNullFree(base: Config, layers: seq<Config>)
    requires base.Dict? && NullFree(base) && forall l :: l in layers ==> l.Dict?
    ensures NullFree(MergeAll(base, layers))
    decreases |layers|
  {
    if layers != [] {
      MergeNullFree(base, layers[0]);
      MergeAllNullFree(Merge(base, layers[0]), layers[1..]);
    }
  }
}
