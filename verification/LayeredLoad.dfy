/**
The mutating half of layered configuration: the path chain that `_push` keeps
in a list and an index map, the in-place deep merge of mutable dictionaries,
and the loader that runs both.
*/
module LayeredLoad {
  import opened Wrappers
  import opened LayeredConfig

  // ------------------------------------------------------------ the chain

  function Without(paths: seq<Path>, p: Path): seq<Path> {
    if paths == [] then [] else (if paths[0] == p then [] else [paths[0]]) + Without(paths[1..], p)
  }

  lemma {:induction false} WithoutAbsent(paths: seq<Path>, p: Path)
    requires p !in paths
    ensures Without(paths, p) == paths
  {
    if paths != [] { WithoutAbsent(paths[1..], p); }
  }

  lemma {:induction false} KeepLastElements(paths: seq<Path>, p: Path)
    ensures p in KeepLast(paths) <==> p in paths
  {
    if paths != [] { KeepLastElements(paths[1..], p); }
  }

  /** Pushing once more removes the earlier occurrence and appends the path. */
  lemma {:induction false} KeepLastPush(paths: seq<Path>, p: Path)
    ensures KeepLast(paths + [p]) == Without(KeepLast(paths), p) + [p]
  {
    if paths == [] {
      assert [p][1..] == [];
      assert KeepLast([p][1..]) == [];
    } else {
      assert (paths + [p])[1..] == paths[1..] + [p];
      KeepLastPush(paths[1..], p);
      KeepLastElements(paths[1..], p);
      if paths[0] !in paths[1..] {
        var rest := KeepLast(paths[1..]);
        assert ([paths[0]] + rest)[1..] == rest;
      }
    }
  }

  lemma {:induction false} WithoutAt(paths: seq<Path>, i: nat)
    requires i < |paths| && forall j :: 0 <= j < |paths| && j != i ==> paths[j] != paths[i]
    ensures Without(paths, paths[i]) == paths[..i] + paths[i + 1..]
  {
    if i == 0 {
      assert paths[0] !in paths[1..];
      WithoutAbsent(paths[1..], paths[0]);
    } else {
      WithoutAt(paths[1..], i - 1);
      assert paths[1..][..i - 1] == paths[1..i];
      assert paths[..i] == [paths[0]] + paths[1..i];
      assert paths[1..][i..] == paths[i + 1..];
    }
  }

  /** `seen` maps every path of the chain to its index, so the chain has no duplicates. */
  predicate Indexed(chain: seq<Path>, seen: map<Path, nat>) {
    && (forall i :: 0 <= i < |chain| ==> chain[i] in seen && seen[chain[i]] == i)
    && (forall p :: p in seen ==> seen[p] < |chain| && chain[seen[p]] == p)
  }

  function Shift(i: nat, gap: nat): nat {
    if i > gap then i - 1 else i
  }

  function Shifted(seen: map<Path, nat>, gap: nat): map<Path, nat> {
    map k | k in seen :: Shift(seen[k], gap)
  }

  lemma DropIndexed(chain: seq<Path>, seen: map<Path, nat>, p: Path)
    requires Indexed(chain, seen) && p in seen
    ensures var gap := seen[p]; var shifted := Shifted(seen, gap);
            Indexed(chain[..gap] + chain[gap + 1..], map k | k in shifted && k != p :: shifted[k])
  {
    var gap := seen[p];
    var chain' := chain[..gap] + chain[gap + 1..];
    forall i | 0 <= i < |chain'| ensures chain'[i] == chain[if i < gap then i else i + 1] {}
  }

  class PathChain {
    var chain: seq<Path>
    var seen: map<Path, nat>
    ghost var pushed: seq<Path>

    /** `seen` indexes the chain, and the chain is everything pushed so far, less all but the last of each path. */
    ghost predicate Valid()
      reads this
    {
      Indexed(chain, seen) && chain == KeepLast(pushed)
    }

    constructor ()
      ensures Valid() && pushed == []
    {
      chain, seen, pushed := [], map[], [];
    }

    /** Moves every index above that of `p` down by one. */
    method CloseGap(p: Path)
      requires p in seen
      modifies this`seen
      ensures seen == Shifted(old(seen), old(seen)[p])
    {
      ghost var gap := seen[p];
      var todo := seen.Keys;
      while todo != {}
        invariant seen.Keys == old(seen).Keys && todo <= seen.Keys && seen[p] == gap
        invariant forall k :: k in seen ==> seen[k] == (if k in todo then old(seen)[k] else Shift(old(seen)[k], gap))
        decreases |todo|
      {
        var k :| k in todo;
        if seen[k] > seen[p] {
          seen := seen[k := seen[k] - 1];
        }
        todo := todo - {k};
      }
    }

    method Forget(p: Path)
      requires Indexed(chain, seen) && p in seen
      modifies this`chain, this`seen
      ensures Indexed(chain, seen) && p !in seen && chain == Without(old(chain), p)
    {
      WithoutAt(chain, seen[p]);
      DropIndexed(chain, seen, p);
      chain := chain[..seen[p]] + chain[seen[p] + 1..];
      CloseGap(p);
      seen := map k | k in seen && k != p :: seen[k];
    }

    method Push(p: Path)
      requires Valid()
      modifies this
      ensures Valid() && pushed == old(pushed) + [p]
    {
      KeepLastPush(pushed, p);
      if p in seen {
        Forget(p);
      } else {
        WithoutAbsent(chain, p);
      }
      seen := seen[p := |chain|];
      chain := chain + [p];
      pushed := pushed + [p];
    }
  }

  function Existing(paths: seq<Option<Path>>): seq<Path> {
    if paths == [] then [] else (if paths[0].None? then [] else [paths[0].value]) + Existing(paths[1..])
  }

  lemma {:induction false} ExistingAppend(before: seq<Option<Path>>, after: seq<Option<Path>>)
    ensures Existing(before + after) == Existing(before) + Existing(after)
  {
    if before == [] {
      assert before + after == after;
    } else {
      assert (before + after)[1..] == before[1..] + after;
      ExistingAppend(before[1..], after);
    }
  }

  /** A missing path contributes nothing and one that exists itself, so with the order
      above the paths are exactly those that exist, in their order. */
  lemma ExistingOne(p: Option<Path>)
    ensures Existing([p]) == if p.Some? then [p.value] else []
  {
    assert Existing([p][1..]) == [];
  }

  lemma {:induction false} InExisting(paths: seq<Option<Path>>, p: Path)
    ensures p in Existing(paths) <==> Some(p) in paths
  {
    if paths != [] {
      InExisting(paths[1..], p);
    }
  }

  /** `p` stands before `q`. */
  predicate Before(chain: seq<Path>, p: Path, q: Path) {
    exists i, j :: 0 <= i < j < |chain| && chain[i] == p && chain[j] == q
  }

  /** Some `q` comes after every `p`. */
  predicate LastBefore(paths: seq<Path>, p: Path, q: Path) {
    exists j :: 0 <= j < |paths| && paths[j] == q && p !in paths[j..]
  }

  lemma LastBeforeCons(paths: seq<Path>, p: Path, q: Path)
    requires paths != [] && p != q
    ensures LastBefore(paths, p, q) <==> LastBefore(paths[1..], p, q) || (paths[0] == q && p !in paths)
  {
    if LastBefore(paths, p, q) {
      var j :| 0 <= j < |paths| && paths[j] == q && p !in paths[j..];
      if j > 0 { assert paths[1..][j - 1] == q && paths[1..][j - 1..] == paths[j..]; } else { assert paths[0..] == paths; }
    }
    if LastBefore(paths[1..], p, q) {
      var j :| 0 <= j < |paths[1..]| && paths[1..][j] == q && p !in paths[1..][j..];
      assert paths[j + 1] == q && paths[j + 1..] == paths[1..][j..];
    }
    if paths[0] == q && p !in paths { assert paths[0..] == paths; }
  }

  lemma BeforeCons(x: Path, rest: seq<Path>, p: Path, q: Path)
    ensures Before([x] + rest, p, q) <==> Before(rest, p, q) || (p == x && q in rest)
  {
    var all := [x] + rest;
    if Before(rest, p, q) {
      var i, j :| 0 <= i < j < |rest| && rest[i] == p && rest[j] == q;
      assert all[i + 1] == p && all[j + 1] == q;
    }
    if p == x && q in rest {
      var j :| 0 <= j < |rest| && rest[j] == q;
      assert all[0] == p && all[j + 1] == q;
    }
    if Before(all, p, q) {
      var i, j :| 0 <= i < j < |all| && all[i] == p && all[j] == q;
      assert rest[j - 1] == q;
      if i > 0 { assert rest[i - 1] == p; }
    }
  }

  /** The chain has exactly the paths that were pushed, each once. */
  lemma {:induction false} KeepLastOnce(paths: seq<Path>)
    ensures forall i, j :: 0 <= i < j < |KeepLast(paths)| ==> KeepLast(paths)[i] != KeepLast(paths)[j]
    ensures forall p :: p in KeepLast(paths) <==> p in paths
  {
    if paths != [] {
      KeepLastOnce(paths[1..]);
      forall p ensures p in KeepLast(paths) <==> p in paths { KeepLastElements(paths, p); }
    }
  }

  /** They stand in the order of their last pushes. */
  lemma {:induction false} KeepLastOrder(paths: seq<Path>, p: Path, q: Path)
    requires p in paths && q in paths && p != q
    ensures Before(KeepLast(paths), p, q) <==> LastBefore(paths, p, q)
  {
    var x, t := paths[0], paths[1..];
    LastBeforeCons(paths, p, q);
    KeepLastElements(t, p);
    KeepLastElements(t, q);
    if p in t && q in t {
      KeepLastOrder(t, p, q);
    }
    if x !in t {
      BeforeCons(x, KeepLast(t), p, q);
      if p !in t || q !in t { NotBefore(KeepLast(t), t, p, q); }
    }
  }

  lemma NotBefore(chain: seq<Path>, t: seq<Path>, p: Path, q: Path)
    requires (p in chain <==> p in t) && (q in chain <==> q in t) && (p !in t || q !in t)
    ensures !Before(chain, p, q)
    ensures LastBefore(t, p, q) <==> q in t && p !in t
  {
    if q in t && p !in t {
      var j :| 0 <= j < |t| && t[j] == q;
      assert p !in t[j..];
    }
  }

  method PushExisting(c: PathChain, paths: seq<Option<Path>>)
    requires c.Valid()
    modifies c
    ensures c.Valid() && c.pushed == old(c.pushed) + Existing(paths)
  {
    for i := 0 to |paths|
      invariant c.Valid() && c.pushed == old(c.pushed) + Existing(paths[..i])
    {
      assert paths[..i + 1] == paths[..i] + [paths[i]];
      ExistingAppend(paths[..i], [paths[i]]);
      assert Existing([paths[i]][1..]) == [];
      if paths[i].Some? {
        c.Push(paths[i].value);
      }
    }
    assert paths[..|paths|] == paths;
  }

  /** The chain of one file name: bundled paths, then user, project and
      environment paths, missing files dropped, each file at its highest position. */
  method LayeredPaths(prepend: seq<Option<Path>>, user: Option<Path>, project: Option<Path>, env: seq<Option<Path>>)
    returns (chain: seq<Path>)
    ensures chain == KeepLast(Existing(prepend + [user, project] + env))
  {
    var c := new PathChain();
    PushExisting(c, prepend);
    PushExisting(c, [user, project]);
    PushExisting(c, env);
    assert c.pushed == Existing(prepend) + Existing([user, project]) + Existing(env);
    ExistingAppend(prepend, [user, project]);
    ExistingAppend(prepend + [user, project], env);
    return c.chain;
  }

  // ------------------------------------------------------------ the in-place merge

  datatype Item = NullItem | LeafItem(value: string) | DictItem(dict: MutableDict)

  /** A mutable dictionary. `Repr` holds it and every dictionary below it. */
  class MutableDict {
    var entries: map<Key, Item>
    ghost var Repr: set<MutableDict>

    constructor ()
      ensures Valid() && Unshared() && fresh(Repr) && Model() == EMPTY_DICT && entries == map[]
    {
      entries, Repr := map[], {this};
    }

    /** No dictionary contains itself; two keys may still share one, as YAML aliases do. */
    ghost predicate Valid()
      reads this, Repr
      decreases Repr
    {
      && this in Repr
      && (forall k :: k in entries && entries[k].DictItem? ==> Below(entries[k].dict) && entries[k].dict.Valid())
    }

    ghost predicate Below(d: MutableDict)
      reads this, Repr
    {
      d in Repr && d.Repr <= Repr && this !in d.Repr
    }

    /** No dictionary is reachable along two different paths. */
    ghost predicate Unshared()
      requires Valid()
      reads this, Repr
      decreases Repr
    {
      && (forall k :: k in entries && entries[k].DictItem? ==> entries[k].dict.Unshared())
      && (forall j, k :: j in entries && k in entries && j != k && entries[j].DictItem? && entries[k].DictItem? ==>
            entries[j].dict.Repr !! entries[k].dict.Repr)
    }

    ghost function ItemModel(item: Item): Config
      requires item.DictItem? ==> this in Repr && Below(item.dict) && item.dict.Valid()
      reads this, Repr
      decreases Repr, 0
    {
      match item
      case NullItem => Null
      case LeafItem(v) => Leaf(v)
      case DictItem(d) => d.Model()
    }

    ghost function Model(): (c: Config)
      requires Valid()
      reads this, Repr
      ensures c.Dict?
      decreases Repr, 1
    {
      Dict(map k | k in entries :: ItemModel(entries[k]))
    }

    /** What the dictionary holds at a key, as a value. */
    ghost function Holds(k: Key): Option<Config>
      requires Valid()
      reads this, Repr
    {
      if k in entries then Some(ItemModel(entries[k])) else None
    }

    lemma HoldsModel(k: Key)
      requires Valid()
      ensures Holds(k) == Get(Model().entries, k)
    {
    }
  }

  /** A dictionary that holds what a value has at every key is that value. */
  lemma HoldsAll(d: MutableDict, c: Config)
    requires d.Valid() && c.Dict? && forall k :: d.Holds(k) == Get(c.entries, k)
    ensures d.Model() == c
  {
    forall k ensures Get(d.Model().entries, k) == Get(c.entries, k) {
      d.HoldsModel(k);
    }
    SameEntries(d.Model(), c);
  }

  method SetScalar(d: MutableDict, k: Key, item: Item)
    requires d.Valid() && d.Unshared() && !item.DictItem?
    modifies d
    ensures d.Valid() && d.Unshared() && d.Repr == old(d.Repr)
    ensures d.Holds(k) == Some(if item.NullItem? then Null else Leaf(item.value)) && d.entries == old(d.entries)[k := item]
    ensures forall j :: j != k ==> d.Holds(j) == old(d.Holds(j))
  {
    d.entries := d.entries[k := item];
    forall j | j in d.entries && d.entries[j].DictItem?
      ensures d.entries[j].dict.Valid() && d.entries[j].dict.Model() == old(d.entries[j].dict.Model())
    {
    }
  }

  method RemoveKey(d: MutableDict, k: Key)
    requires d.Valid() && d.Unshared()
    modifies d
    ensures d.Valid() && d.Unshared() && d.Repr == old(d.Repr)
    ensures d.Holds(k) == None && forall j :: j != k ==> d.Holds(j) == old(d.Holds(j))
  {
    d.entries := d.entries - {k};
    forall j | j in d.entries && d.entries[j].DictItem?
      ensures d.entries[j].dict.Valid() && d.entries[j].dict.Model() == old(d.entries[j].dict.Model())
    {
    }
  }

  /** Points key `k` at `child`, which no other key of `d` reaches into. */
  method SetDict(d: MutableDict, k: Key, child: MutableDict)
    requires d in d.Repr && child.Valid() && child.Unshared() && d !in child.Repr
    requires forall j :: j in d.entries && j != k && d.entries[j].DictItem? ==>
               d.Below(d.entries[j].dict) && d.entries[j].dict.Valid() && d.entries[j].dict.Unshared()
               && d.entries[j].dict.Repr !! child.Repr
    requires forall i, j ::
               (i in d.entries && j in d.entries && i != k && j != k && i != j && d.entries[i].DictItem? && d.entries[j].DictItem?)
               ==> d.entries[i].dict.Repr !! d.entries[j].dict.Repr
    modifies d
    ensures d.Valid() && d.Unshared() && d.Repr == old(d.Repr) + child.Repr
    ensures child.Valid() && child.Model() == old(child.Model())
    ensures d.Holds(k) == Some(child.Model())
    ensures d.entries == old(d.entries)[k := DictItem(child)]
    ensures forall j :: j in d.entries && j != k && d.entries[j].DictItem? ==>
              d.entries[j].dict.Valid() && d.entries[j].dict.Model() == old(d.entries[j].dict.Model())
  {
    d.entries := d.entries[k := DictItem(child)];
    d.Repr := d.Repr + child.Repr;
  }

  /** One key of the overlay: null deletes, a mapping merges into the mapping
      there or into a new one, anything else replaces. */
  method MergeKey(d: MutableDict, k: Key, item: Item)
    requires d.Valid() && d.Unshared()
    requires item.DictItem? ==> item.dict.Valid() && item.dict.Repr !! d.Repr
    modifies d.Repr
    ensures d.Valid() && d.Unshared() && old(d.Repr) <= d.Repr && fresh(d.Repr - old(d.Repr))
    ensures item.DictItem? ==> item.dict.Valid()
    ensures d.Holds(k) == old(match item
                              case NullItem => None
                              case LeafItem(v) => Combine(d.Holds(k), Leaf(v))
                              case DictItem(o) => Combine(d.Holds(k), o.Model()))
    ensures forall j :: j != k ==> d.Holds(j) == old(d.Holds(j))
    decreases if item.DictItem? then item.dict.Repr else {}, 2
  {
    match item
    case DictItem(o) =>
      if k in d.entries && d.entries[k].DictItem? {
        MergeBelow(d, k, o);
      } else {
        MergeNew(d, k, o);
      }
    case NullItem =>
      RemoveKey(d, k);
    case LeafItem(_) =>
      SetScalar(d, k, item);
  }

  /** A mapping merges into a new one where the key holds none. */
  method MergeNew(d: MutableDict, k: Key, o: MutableDict)
    requires d.Valid() && d.Unshared() && !(k in d.entries && d.entries[k].DictItem?)
    requires o.Valid() && o.Repr !! d.Repr
    modifies d
    ensures d.Valid() && d.Unshared() && old(d.Repr) <= d.Repr && fresh(d.Repr - old(d.Repr))
    ensures o.Valid()
    ensures d.Holds(k) == Some(Merge(EMPTY_DICT, old(o.Model())))
    ensures forall j :: j != k ==> d.Holds(j) == old(d.Holds(j))
    decreases o.Repr, 1
  {
    var child := new MutableDict();
    MergeInto(child, o);
    SetDict(d, k, child);
  }

  method MergeBelow(d: MutableDict, k: Key, o: MutableDict)
    requires d.Valid() && d.Unshared() && k in d.entries && d.entries[k].DictItem?
    requires o.Valid() && o.Repr !! d.Repr
    modifies d.Repr
    ensures d.Valid() && d.Unshared() && old(d.Repr) <= d.Repr && fresh(d.Repr - old(d.Repr))
    ensures o.Valid()
    ensures d.Holds(k) == Some(Merge(old(d.entries[k].dict.Model()), old(o.Model())))
    ensures forall j :: j != k ==> d.Holds(j) == old(d.Holds(j))
    decreases o.Repr, 1
  {
    var child := d.entries[k].dict;
    MergeInto(child, o);
    SetDict(d, k, child);
  }

  /** The in-place deep merge. The overlay may share sub-mappings; the base does
      not, never comes to share one with the overlay, and the overlay is not modified. */
  method MergeInto(base: MutableDict, overlay: MutableDict)
    requires base.Valid() && base.Unshared() && overlay.Valid() && base.Repr !! overlay.Repr
    modifies base.Repr
    ensures base.Valid() && base.Unshared() && old(base.Repr) <= base.Repr && fresh(base.Repr - old(base.Repr))
    ensures base.Model() == Merge(old(base.Model()), old(overlay.Model()))
    ensures overlay.Valid() && overlay.Model() == old(overlay.Model()) && base.Repr !! overlay.Repr
    decreases overlay.Repr, 0
  {
    ghost var was, over := base.Model(), overlay.Model();
    var todo := overlay.entries.Keys;
    while todo != {}
      invariant todo <= overlay.entries.Keys
      invariant base.Valid() && base.Unshared() && old(base.Repr) <= base.Repr && fresh(base.Repr - old(base.Repr))
      invariant base.Repr !! overlay.Repr && overlay.Valid() && overlay.Model() == over
      invariant forall k :: base.Holds(k) ==
                  Apply(Get(was.entries, k), if k in todo then None else Get(over.entries, k))
      decreases |todo|
    {
      var k :| k in todo;
      MergeKey(base, k, overlay.entries[k]);
      todo := todo - {k};
    }
    forall k ensures base.Holds(k) == Get(Merge(was, over).entries, k) {
      MergeEntry(was, over, k);
    }
    HoldsAll(base, Merge(was, over));
  }

  // ------------------------------------------------------------ the loader

  method ParseKey(d: MutableDict, k: Key, c: Config)
    requires d.Valid() && d.Unshared() && k !in d.entries
    modifies d
    ensures d.Valid() && d.Unshared() && old(d.Repr) <= d.Repr && fresh(d.Repr - old(d.Repr))
    ensures d.Holds(k) == Some(c)
    ensures forall j :: j != k ==> d.Holds(j) == old(d.Holds(j))
    decreases c, 1
  {
    match c {
      case Null => SetScalar(d, k, NullItem);
      case Leaf(v) => SetScalar(d, k, LeafItem(v));
      case Dict(_) =>
        var child := Parse(c);
        SetDict(d, k, child);
    }
  }

  /** Parsing allocates new dictionaries. */
  method Parse(c: Config) returns (d: MutableDict)
    requires c.Dict?
    ensures d.Valid() && d.Unshared() && fresh(d.Repr) && d.Model() == c
    decreases c, 0
  {
    d := new MutableDict();
    var todo := c.entries.Keys;
    while todo != {}
      invariant todo <= c.entries.Keys
      invariant d.Valid() && d.Unshared() && fresh(d.Repr)
      invariant forall k :: d.Holds(k) == if k in todo then None else Get(c.entries, k)
      decreases |todo|
    {
      var k :| k in todo;
      assert d.Holds(k) == None;
      ParseKey(d, k, c.entries[k]);
      todo := todo - {k};
    }
    HoldsAll(d, c);
  }

  lemma LoadOneMore(files: Path -> Loaded, chain: seq<Path>, i: nat)
    requires i < |chain|
    ensures LoadAll(files, chain[..i + 1]) ==
            match files(chain[i])
            case Mapping(entries) => Merge(LoadAll(files, chain[..i]), Dict(entries))
            case _ => LoadAll(files, chain[..i])
  {
    assert Layers(files, [chain[i]][1..]) == [];
    assert chain[..i + 1] == chain[..i] + [chain[i]];
    LayersSplit(files, chain[..i], [chain[i]]);
    MergeAllAppend(EMPTY_DICT, Layers(files, chain[..i]), Layers(files, [chain[i]]));
  }

  /** A file that is unreadable, empty or not a mapping is skipped. */
  method MergeFile(merged: MutableDict, loaded: Loaded)
    requires merged.Valid() && merged.Unshared()
    modifies merged.Repr
    ensures merged.Valid() && merged.Unshared() && fresh(merged.Repr - old(merged.Repr))
    ensures merged.Model() == if loaded.Mapping? then Merge(old(merged.Model()), Dict(loaded.entries)) else old(merged.Model())
  {
    if loaded.Mapping? {
      var data := Parse(Dict(loaded.entries));
      MergeInto(merged, data);
    }
  }

  /** Loading merges exactly what all the listed files hold, in priority order:
      the deduplication inside does not show. */
  method LoadLayered(files: Path -> Loaded,
                     prepend: seq<Option<Path>>, user: Option<Path>, project: Option<Path>, env: seq<Option<Path>>)
    returns (merged: MutableDict)
    ensures merged.Valid() && merged.Unshared() && fresh(merged.Repr)
    ensures merged.Model() == LoadAll(files, Existing(prepend + [user, project] + env))
  {
    var chain := LayeredPaths(prepend, user, project, env);
    merged := new MutableDict();
    for i := 0 to |chain|
      invariant merged.Valid() && merged.Unshared() && fresh(merged.Repr)
      invariant merged.Model() == LoadAll(files, chain[..i])
    {
      LoadOneMore(files, chain, i);
      MergeFile(merged, files(chain[i]));
    }
    assert chain[..|chain|] == chain;
    DedupInvisible(files, Existing(prepend + [user, project] + env));
  }
}
