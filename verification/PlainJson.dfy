/**
The bounded walk that recognises plain JSON values.

Python values form a graph of references that may share parts and may be
cyclic.  The walk keeps an explicit stack and a budget; it is proved to answer
a question about the unfolded tree: are all its nodes plain, is it at most
`MAX_DEPTH` deep, and has it at most `MAX_ITEMS` nodes.
*/
module PlainJson {
  import opened Wrappers

  const MAX_DEPTH: nat := 32
  const MAX_ITEMS: nat := 10_000

  // ------------------------------------------------------------ strings

  type CodePoint = c: int | 0 <= c <= 0x10FFFF

  /** An exact `str` with its code points, or any other object. */
  datatype Text = Exact(points: seq<CodePoint>) | Foreign

  predicate Surrogate(c: CodePoint) { 0xD800 <= c <= 0xDFFF }

  predicate Ascii(t: seq<CodePoint>) { forall i :: 0 <= i < |t| ==> t[i] < 0x80 }

  /** The UTF-8 bytes of a code point, section 3 of RFC 3629; surrogates have none. */
  function EncodePoint(c: CodePoint): Option<seq<nat>> {
    if Surrogate(c) then None
    else if c < 0x80 then Some([c])
    else if c < 0x800 then Some([0xC0 + c / 0x40, 0x80 + c % 0x40])
    else if c < 0x10000 then Some([0xE0 + c / 0x1000, 0x80 + c / 0x40 % 0x40, 0x80 + c % 0x40])
    else Some([0xF0 + c / 0x40000, 0x80 + c / 0x1000 % 0x40, 0x80 + c / 0x40 % 0x40, 0x80 + c % 0x40])
  }

  function Encode(t: seq<CodePoint>): Option<seq<nat>> {
    if t == [] then Some([]) else
      var head, tail := EncodePoint(t[0]), Encode(t[1..]);
      if head.None? || tail.None? then None else Some(head.value + tail.value)
  }

  predicate Encodable(t: Text) {
    t.Exact? && forall i :: 0 <= i < |t.points| ==> !Surrogate(t.points[i])
  }

  lemma {:induction false} EncodeSucceedsIff(t: seq<CodePoint>)
    ensures Encode(t).Some? <==> Encodable(Exact(t))
  {
    if t != [] {
      EncodeSucceedsIff(t[1..]);
      assert forall i :: 0 < i < |t| ==> t[i] == t[1..][i - 1];
      if Encodable(Exact(t[1..])) && !Surrogate(t[0]) {
        forall i | 0 <= i < |t| ensures !Surrogate(t[i]) { if i > 0 { assert !Surrogate(t[1..][i - 1]); } }
      }
      if Encodable(Exact(t)) {
        forall i | 0 <= i < |t[1..]| ensures !Surrogate(t[1..][i]) { assert !Surrogate(t[i + 1]); }
      }
    }
  }

  method IsUtf8Str(t: Text) returns (ok: bool)
    ensures ok <==> Encodable(t)
  {
    if t.Foreign? { return false; }
    EncodeSucceedsIff(t.points);
    if Ascii(t.points) { return true; }
    return Encode(t.points).Some?;
  }

  // ------------------------------------------------------------ values

  type Ref = nat

  /** A Python object: exact types only, so a subclass or an enum is `Other`. */
  datatype Node =
    | NoneValue
    | Number
    | Str(text: Text)
    | ListNode(items: seq<Ref>)
    | TupleNode(items: seq<Ref>)
    | DictNode(keys: seq<Text>, items: seq<Ref>)
    | Other

  function Items(n: Node): seq<Ref> {
    if n.ListNode? || n.TupleNode? || n.DictNode? then n.items else []
  }

  predicate Closed(g: seq<Node>) {
    forall v, i :: 0 <= v < |g| && 0 <= i < |Items(g[v])| ==> Items(g[v])[i] < |g|
  }

  /** The node itself, leaving its children aside, is plain JSON. */
  predicate PlainKind(n: Node) {
    match n
    case Str(text) => Encodable(text)
    case DictNode(keys, _) => forall i :: 0 <= i < |keys| ==> Encodable(keys[i])
    case Other => false
    case _ => true
  }

  /** Every node of the tree unfolded from `v` is plain and the tree is at most `d` deep. */
  ghost predicate Plain(g: seq<Node>, v: Ref, d: nat)
    requires Closed(g) && v < |g|
    decreases d
  {
    var items := Items(g[v]);
    && PlainKind(g[v])
    && (items == [] || (d > 0 && forall i :: 0 <= i < |items| ==> Plain(g, items[i], d - 1)))
  }

  /** The nodes of the tree unfolded from `v`, down to depth `d`. */
  ghost function Size(g: seq<Node>, v: Ref, d: nat): (n: nat)
    requires Closed(g) && v < |g|
    ensures n > 0
    decreases d, 1, 0
  {
    if d == 0 then 1 else 1 + SizeAll(g, Items(g[v]), d - 1)
  }

  ghost function SizeAll(g: seq<Node>, items: seq<Ref>, d: nat): (n: nat)
    requires Closed(g) && forall i :: 0 <= i < |items| ==> items[i] < |g|
    ensures n >= |items|
    decreases d, 2, |items|
  {
    if items == [] then 0 else
      SizeAll(g, items[..|items| - 1], d) + Size(g, items[|items| - 1], d)
  }

  /** A container is plain if and only if all its elements are, one level down, and, for
      a dictionary, its keys encode; an empty one needs no level. */
  lemma PlainContainers(g: seq<Node>, v: Ref, d: nat, items: seq<Ref>, keys: seq<Text>)
    requires Closed(g) && v < |g|
    requires g[v] == ListNode(items) || g[v] == TupleNode(items) || g[v] == DictNode(keys, items)
    ensures forall i :: 0 <= i < |items| ==> items[i] < |g|
    ensures Plain(g, v, d) <==>
      && (g[v].DictNode? ==> forall i :: 0 <= i < |keys| ==> Encodable(keys[i]))
      && forall i :: 0 <= i < |items| ==> d > 0 && Plain(g, items[i], d - 1)
  {
    assert Items(g[v]) == items;
    assert d == 0 && items != [] ==> items[0] < |g|;
    assert PlainKind(g[v]) <==> (g[v].DictNode? ==> forall i :: 0 <= i < |keys| ==> Encodable(keys[i]));
  }

  /** Of the other objects None, numbers and encodable strings are plain, and nothing else is. */
  lemma PlainScalars(g: seq<Node>, v: Ref, d: nat)
    requires Closed(g) && v < |g|
    ensures g[v] == NoneValue || g[v] == Number ==> Plain(g, v, d)
    ensures g[v].Str? ==> (Plain(g, v, d) <==>
      g[v].text.Exact? && forall i :: 0 <= i < |g[v].text.points| ==> !(0xD800 <= g[v].text.points[i] <= 0xDFFF))
    ensures g[v] == Other ==> !Plain(g, v, d)
    ensures !g[v].ListNode? && !g[v].TupleNode? && !g[v].DictNode? ==> Size(g, v, d) == 1
  {
    if d > 0 { assert SizeAll(g, [], d - 1) == 0; }
  }

  function Sum(xs: seq<nat>): nat {
    if xs == [] then 0 else Sum(xs[..|xs| - 1]) + xs[|xs| - 1]
  }

  /** What each of the elements counts. */
  ghost function Sizes(g: seq<Node>, items: seq<Ref>, d: nat): (sizes: seq<nat>)
    requires Closed(g) && forall i :: 0 <= i < |items| ==> items[i] < |g|
    ensures |sizes| == |items| && forall i :: 0 <= i < |items| ==> sizes[i] == Size(g, items[i], d)
  {
    seq(|items|, i requires 0 <= i < |items| => Size(g, items[i], d))
  }

  lemma {:induction false} SizeAllIsSum(g: seq<Node>, items: seq<Ref>, d: nat)
    requires Closed(g) && forall i :: 0 <= i < |items| ==> items[i] < |g|
    ensures SizeAll(g, items, d) == Sum(Sizes(g, items, d))
  {
    if items != [] {
      SizeAllIsSum(g, items[..|items| - 1], d);
      assert Sizes(g, items, d)[..|items| - 1] == Sizes(g, items[..|items| - 1], d);
    }
  }

  /** A container counts itself and what each of its elements counts, down to depth 0. */
  lemma SizeOfContainers(g: seq<Node>, v: Ref, d: nat, items: seq<Ref>, keys: seq<Text>)
    requires Closed(g) && v < |g|
    requires g[v] == ListNode(items) || g[v] == TupleNode(items) || g[v] == DictNode(keys, items)
    ensures forall i :: 0 <= i < |items| ==> items[i] < |g|
    ensures Size(g, v, d) == if d == 0 then 1 else 1 + Sum(Sizes(g, items, d - 1))
  {
    assert Items(g[v]) == items;
    if d > 0 { SizeAllIsSum(g, items, d - 1); }
  }

  // ------------------------------------------------------------ the walk

  datatype Entry = Entry(item: Ref, depth: nat)

  ghost predicate EntriesIn(g: seq<Node>, stack: seq<Entry>) {
    forall i :: 0 <= i < |stack| ==> stack[i].item < |g|
  }

  ghost predicate EntryPlain(g: seq<Node>, e: Entry)
    requires Closed(g) && e.item < |g|
  {
    e.depth <= MAX_DEPTH && Plain(g, e.item, MAX_DEPTH - e.depth)
  }

  ghost predicate StackPlain(g: seq<Node>, stack: seq<Entry>)
    requires Closed(g) && EntriesIn(g, stack)
  {
    forall i :: 0 <= i < |stack| ==> EntryPlain(g, stack[i])
  }

  ghost function EntrySize(g: seq<Node>, e: Entry): (n: nat)
    requires Closed(g) && e.item < |g|
    ensures n > 0
  {
    if e.depth <= MAX_DEPTH then Size(g, e.item, MAX_DEPTH - e.depth) else 1
  }

  ghost function StackSize(g: seq<Node>, stack: seq<Entry>): (n: nat)
    requires Closed(g) && EntriesIn(g, stack)
    ensures n >= |stack|
  {
    if stack == [] then 0 else StackSize(g, stack[..|stack| - 1]) + EntrySize(g, stack[|stack| - 1])
  }

  function Children(items: seq<Ref>, depth: nat): seq<Entry> {
    seq(|items|, i requires 0 <= i < |items| => Entry(items[i], depth))
  }

  /** The rest of the walk will accept: all that is queued is plain and fits the budget. */
  ghost predicate Fits(g: seq<Node>, stack: seq<Entry>, budget: int)
    requires Closed(g) && EntriesIn(g, stack)
  {
    StackPlain(g, stack) && StackSize(g, stack) <= budget
  }

  lemma {:induction false} StackSizeChildren(g: seq<Node>, stack: seq<Entry>, items: seq<Ref>, depth: nat)
    requires Closed(g) && EntriesIn(g, stack) && depth <= MAX_DEPTH
    requires forall i :: 0 <= i < |items| ==> items[i] < |g|
    ensures EntriesIn(g, stack + Children(items, depth))
    ensures StackSize(g, stack + Children(items, depth)) == StackSize(g, stack) + SizeAll(g, items, MAX_DEPTH - depth)
    decreases |items|
  {
    if items == [] {
      assert stack + Children(items, depth) == stack;
    } else {
      var most, last := items[..|items| - 1], Entry(items[|items| - 1], depth);
      StackSizeChildren(g, stack, most, depth);
      assert stack + Children(items, depth) == stack + Children(most, depth) + [last];
      StackPush(g, stack + Children(most, depth), last);
    }
  }

  lemma StackPlainChildren(g: seq<Node>, stack: seq<Entry>, items: seq<Ref>, depth: nat)
    requires Closed(g) && EntriesIn(g, stack) && forall i :: 0 <= i < |items| ==> items[i] < |g|
    ensures EntriesIn(g, stack + Children(items, depth))
    ensures StackPlain(g, stack + Children(items, depth)) <==>
            StackPlain(g, stack) && forall i :: 0 <= i < |items| ==> EntryPlain(g, Entry(items[i], depth))
  {
    var cs := Children(items, depth);
    var both := stack + cs;
    assert forall i :: 0 <= i < |stack| ==> both[i] == stack[i];
    assert forall i :: 0 <= i < |items| ==> both[|stack| + i] == Entry(items[i], depth);
    if StackPlain(g, both) {
      forall i | 0 <= i < |stack| ensures EntryPlain(g, stack[i]) { assert EntryPlain(g, both[i]); }
      forall i | 0 <= i < |items| ensures EntryPlain(g, Entry(items[i], depth)) { assert EntryPlain(g, both[|stack| + i]); }
    }
  }

  lemma EntryPlainChildren(g: seq<Node>, e: Entry)
    requires Closed(g) && e.item < |g| && e.depth <= MAX_DEPTH
    ensures EntryPlain(g, e) <==>
            PlainKind(g[e.item]) &&
            forall i :: 0 <= i < |Items(g[e.item])| ==> EntryPlain(g, Entry(Items(g[e.item])[i], e.depth + 1))
  {
    var items := Items(g[e.item]);
    if e.depth < MAX_DEPTH {
      assert forall i :: 0 <= i < |items| ==>
        (EntryPlain(g, Entry(items[i], e.depth + 1)) <==> Plain(g, items[i], MAX_DEPTH - e.depth - 1));
    } else if items != [] {
      assert !EntryPlain(g, Entry(items[0], e.depth + 1));
    }
  }

  lemma StackPush(g: seq<Node>, stack: seq<Entry>, e: Entry)
    requires Closed(g) && EntriesIn(g, stack) && e.item < |g|
    ensures EntriesIn(g, stack + [e])
    ensures StackPlain(g, stack + [e]) <==> StackPlain(g, stack) && EntryPlain(g, e)
    ensures StackSize(g, stack + [e]) == StackSize(g, stack) + EntrySize(g, e)
  {
    var all := stack + [e];
    assert all[..|all| - 1] == stack && all[|stack|] == e;
    if StackPlain(g, all) {
      forall i | 0 <= i < |stack| ensures EntryPlain(g, stack[i]) { assert EntryPlain(g, all[i]); }
    }
  }

  /** Replacing the top entry by its children changes neither side of the question. */
  lemma ExpandFits(g: seq<Node>, stack: seq<Entry>, e: Entry, budget: int)
    requires Closed(g) && EntriesIn(g, stack) && e.item < |g| && e.depth <= MAX_DEPTH
    ensures EntriesIn(g, stack + [e]) && EntriesIn(g, stack + Children(Items(g[e.item]), e.depth + 1))
    ensures Fits(g, stack + [e], budget) <==>
            PlainKind(g[e.item]) && Fits(g, stack + Children(Items(g[e.item]), e.depth + 1), budget - 1)
  {
    var items := Items(g[e.item]);
    StackPush(g, stack, e);
    EntryPlainChildren(g, e);
    StackPlainChildren(g, stack, items, e.depth + 1);
    if StackPlain(g, stack + [e]) {
      ExpandSize(g, stack, e);
    }
  }

  lemma ExpandSize(g: seq<Node>, stack: seq<Entry>, e: Entry)
    requires Closed(g) && EntriesIn(g, stack) && e.item < |g| && EntryPlain(g, e)
    ensures EntriesIn(g, stack + Children(Items(g[e.item]), e.depth + 1))
    ensures StackSize(g, stack) + EntrySize(g, e) == 1 + StackSize(g, stack + Children(Items(g[e.item]), e.depth + 1))
  {
    var items := Items(g[e.item]);
    if e.depth < MAX_DEPTH {
      StackSizeChildren(g, stack, items, e.depth + 1);
    } else {
      assert stack + Children(items, e.depth + 1) == stack;
    }
  }

  /** More queued children than budget: the answer is already no. */
  lemma TooMany(g: seq<Node>, stack: seq<Entry>, items: seq<Ref>, depth: nat, budget: int)
    requires Closed(g) && EntriesIn(g, stack + Children(items, depth)) && |stack| + |items| > budget
    ensures !Fits(g, stack + Children(items, depth), budget)
  {
  }

  method IsPlainJson(g: seq<Node>, value: Ref) returns (ok: bool)
    requires Closed(g) && value < |g|
    ensures ok <==> Plain(g, value, 32) && Size(g, value, 32) <= 10_000
  {
    var budget: int := MAX_ITEMS;
    var stack := [Entry(value, 0)];
    assert stack[..0] == [];
    assert StackSize(g, stack) == StackSize(g, []) + EntrySize(g, stack[0]);
    while stack != []
      invariant EntriesIn(g, stack) && |stack| <= budget
      invariant Fits(g, stack, budget) <==> Plain(g, value, MAX_DEPTH) && Size(g, value, MAX_DEPTH) <= MAX_ITEMS
      decreases budget
    {
      var e := stack[|stack| - 1];
      assert stack == stack[..|stack| - 1] + [e];
      stack := stack[..|stack| - 1];
      budget := budget - 1;
      assert budget >= 0;
      if budget < 0 || e.depth > MAX_DEPTH {
        assert !EntryPlain(g, (stack + [e])[|stack|]);
        return false;
      }
      ExpandFits(g, stack, e, budget + 1);
      var node := g[e.item];
      if node.Str? {
        var encodable := IsUtf8Str(node.text);
        if !encodable { return false; }
      } else if node.ListNode? || node.TupleNode? || node.DictNode? {
        if |stack| + |node.items| > budget {
          TooMany(g, stack, node.items, e.depth + 1, budget);
          return false;
        }
        if node.DictNode? {
          var i := 0;
          while i < |node.keys|
            invariant 0 <= i <= |node.keys| && forall j :: 0 <= j < i ==> Encodable(node.keys[j])
          {
            var encodable := IsUtf8Str(node.keys[i]);
            if !encodable { return false; }
            i := i + 1;
          }
        }
        stack := stack + Children(node.items, e.depth + 1);
      } else if node.Other? {
        return false;
      } else {
        assert stack + Children([], e.depth + 1) == stack;
      }
      if node.Str? { assert stack + Children([], e.depth + 1) == stack; }
    }
    return true;
  }

  // ------------------------------------------------------------ the unfolded tree

  /** `p` leads from `v` along children; the paths from `v` are the nodes of its unfolded tree. */
  ghost predicate IsPath(g: seq<Node>, v: Ref, p: seq<nat>)
    requires Closed(g) && v < |g|
    decreases |p|
  {
    p == [] || (p[0] < |Items(g[v])| && IsPath(g, Items(g[v])[p[0]], p[1..]))
  }

  ghost function End(g: seq<Node>, v: Ref, p: seq<nat>): (w: Ref)
    requires Closed(g) && v < |g| && IsPath(g, v, p)
    ensures w < |g|
    decreases |p|
  {
    if p == [] then v else End(g, Items(g[v])[p[0]], p[1..])
  }

  lemma {:induction false} PlainAlongPath(g: seq<Node>, v: Ref, d: nat, p: seq<nat>)
    requires Closed(g) && v < |g| && Plain(g, v, d) && IsPath(g, v, p)
    ensures |p| <= d && Plain(g, End(g, v, p), d - |p|)
    decreases |p|
  {
    if p == [] {
      assert d - |p| == d;
    } else {
      var w := Items(g[v])[p[0]];
      assert Plain(g, w, d - 1);
      PlainAlongPath(g, w, d - 1, p[1..]);
      assert d - 1 - |p[1..]| == d - |p| && End(g, v, p) == End(g, w, p[1..]);
    }
  }

  lemma {:induction false} PlainFromPaths(g: seq<Node>, v: Ref, d: nat)
    requires Closed(g) && v < |g|
    requires forall p :: IsPath(g, v, p) ==> |p| <= d && PlainKind(g[End(g, v, p)])
    ensures Plain(g, v, d)
    decreases d
  {
    var items := Items(g[v]);
    assert IsPath(g, v, []) && End(g, v, []) == v;
    if items != [] {
      assert [0][1..] == [] && IsPath(g, items[0], []);
      assert IsPath(g, v, [0]);
      forall i | 0 <= i < |items| ensures Plain(g, items[i], d - 1) {
        forall p | IsPath(g, items[i], p) ensures |p| <= d - 1 && PlainKind(g[End(g, items[i], p)]) {
          assert ([i] + p)[1..] == p;
          assert IsPath(g, v, [i] + p);
        }
        PlainFromPaths(g, items[i], d - 1);
      }
    }
  }

  function Step(i: nat, p: seq<nat>): seq<nat> { [i] + p }

  ghost function Prefixed(i: nat, paths: set<seq<nat>>): set<seq<nat>> {
    set p | p in paths :: Step(i, p)
  }

  lemma InPrefixed(i: nat, paths: set<seq<nat>>, q: seq<nat>)
    ensures q in Prefixed(i, paths) <==> q != [] && q[0] == i && q[1..] in paths
  {
    if q != [] && q[0] == i { assert q == Step(i, q[1..]); }
    forall p ensures Step(i, p)[0] == i && Step(i, p)[1..] == p {}
  }

  lemma {:induction false} PrefixedCount(i: nat, paths: set<seq<nat>>)
    ensures |Prefixed(i, paths)| == |paths|
  {
    if paths != {} {
      var p :| p in paths;
      PrefixedCount(i, paths - {p});
      InPrefixed(i, paths - {p}, Step(i, p));
      assert Step(i, p)[1..] == p;
      assert Prefixed(i, paths) == Prefixed(i, paths - {p}) + {Step(i, p)};
    }
  }

  /** All paths from `v` of length at most `d`; there are `Size(g, v, d)` of them. */
  ghost function PathsFrom(g: seq<Node>, v: Ref, d: nat): (paths: set<seq<nat>>)
    requires Closed(g) && v < |g|
    decreases d, 1, 0
  {
    if d == 0 then {[]} else {[]} + PathsUnder(g, Items(g[v]), d - 1)
  }

  ghost function PathsUnder(g: seq<Node>, items: seq<Ref>, d: nat): set<seq<nat>>
    requires Closed(g) && forall i :: 0 <= i < |items| ==> items[i] < |g|
    decreases d, 2, |items|
  {
    if items == [] then {} else
      var n := |items| - 1;
      PathsUnder(g, items[..n], d) + Prefixed(n, PathsFrom(g, items[n], d))
  }

  ghost predicate ShortPath(g: seq<Node>, v: Ref, d: nat, p: seq<nat>)
    requires Closed(g) && v < |g|
  {
    IsPath(g, v, p) && |p| <= d
  }

  ghost predicate ShortPathUnder(g: seq<Node>, items: seq<Ref>, d: nat, p: seq<nat>)
    requires Closed(g) && forall i :: 0 <= i < |items| ==> items[i] < |g|
  {
    p != [] && p[0] < |items| && ShortPath(g, items[p[0]], d, p[1..])
  }

  lemma {:induction false} InPathsFrom(g: seq<Node>, v: Ref, d: nat, p: seq<nat>)
    requires Closed(g) && v < |g|
    ensures p in PathsFrom(g, v, d) <==> ShortPath(g, v, d, p)
    decreases d, 1, 0
  {
    if d > 0 { InPathsUnder(g, Items(g[v]), d - 1, p); }
  }

  lemma {:induction false} InPathsUnder(g: seq<Node>, items: seq<Ref>, d: nat, p: seq<nat>)
    requires Closed(g) && forall i :: 0 <= i < |items| ==> items[i] < |g|
    ensures p in PathsUnder(g, items, d) <==> ShortPathUnder(g, items, d, p)
    decreases d, 2, |items|
  {
    if items != [] {
      var n := |items| - 1;
      InPathsUnder(g, items[..n], d, p);
      InPrefixed(n, PathsFrom(g, items[n], d), p);
      if p != [] { InPathsFrom(g, items[n], d, p[1..]); }
    }
  }

  lemma {:induction false} PathsFromCount(g: seq<Node>, v: Ref, d: nat)
    requires Closed(g) && v < |g|
    ensures |PathsFrom(g, v, d)| == Size(g, v, d)
    decreases d, 1, 0
  {
    if d > 0 {
      PathsUnderCount(g, Items(g[v]), d - 1);
      PathsFromStep(g, v, d);
    }
  }

  /** The paths from a node are the empty one and those that begin with a child. */
  lemma PathsFromStep(g: seq<Node>, v: Ref, d: nat)
    requires Closed(g) && v < |g| && d > 0
    ensures |PathsFrom(g, v, d)| == 1 + |PathsUnder(g, Items(g[v]), d - 1)|
  {
    var under := PathsUnder(g, Items(g[v]), d - 1);
    EmptyIsNotUnder(g, Items(g[v]), d - 1);
    OneMore([], under);
  }

  lemma OneMore(p: seq<nat>, paths: set<seq<nat>>)
    requires p !in paths
    ensures |{p} + paths| == 1 + |paths|
  {
  }

  lemma EmptyIsNotUnder(g: seq<Node>, items: seq<Ref>, d: nat)
    requires Closed(g) && forall i :: 0 <= i < |items| ==> items[i] < |g|
    ensures [] !in PathsUnder(g, items, d)
  {
    InPathsUnder(g, items, d, []);
  }

  lemma {:induction false} PathsUnderCount(g: seq<Node>, items: seq<Ref>, d: nat)
    requires Closed(g) && forall i :: 0 <= i < |items| ==> items[i] < |g|
    ensures |PathsUnder(g, items, d)| == SizeAll(g, items, d)
    decreases d, 2, |items|
  {
    if items != [] {
      var n := |items| - 1;
      PathsUnderCount(g, items[..n], d);
      PathsFromCount(g, items[n], d);
      PrefixedCount(n, PathsFrom(g, items[n], d));
      var lower, last := PathsUnder(g, items[..n], d), Prefixed(n, PathsFrom(g, items[n], d));
      forall p | p in lower ensures p !in last {
        InPathsUnder(g, items[..n], d, p);
        InPrefixed(n, PathsFrom(g, items[n], d), p);
      }
      assert lower !! last;
    }
  }

  /** `paths` are the nodes of the unfolded tree, all plain and at most `d` deep. */
  ghost predicate PlainNodes(g: seq<Node>, v: Ref, d: nat, paths: set<seq<nat>>)
    requires Closed(g) && v < |g|
  {
    && (forall p :: p in paths <==> IsPath(g, v, p))
    && (forall p :: IsPath(g, v, p) ==> |p| <= d && PlainKind(g[End(g, v, p)]))
  }

  /** What the walk decides, said of the unfolded tree: it is finite, none of its
      nodes is deeper than `d` or not plain, and it has at most `n` nodes. */
  ghost predicate SmallPlainTree(g: seq<Node>, v: Ref, d: nat, n: nat)
    requires Closed(g) && v < |g|
  {
    exists paths: set<seq<nat>> :: PlainNodes(g, v, d, paths) && |paths| <= n
  }

  lemma PlainHasNodes(g: seq<Node>, v: Ref, d: nat)
    requires Closed(g) && v < |g| && Plain(g, v, d)
    ensures PlainNodes(g, v, d, PathsFrom(g, v, d))
  {
    forall p ensures p in PathsFrom(g, v, d) <==> IsPath(g, v, p) {
      InPathsFrom(g, v, d, p);
      if IsPath(g, v, p) { PlainAlongPath(g, v, d, p); }
    }
    forall p | IsPath(g, v, p) ensures |p| <= d && PlainKind(g[End(g, v, p)]) {
      PlainAlongPath(g, v, d, p);
    }
  }

  lemma NodesArePlain(g: seq<Node>, v: Ref, d: nat, paths: set<seq<nat>>)
    requires Closed(g) && v < |g| && PlainNodes(g, v, d, paths)
    ensures Plain(g, v, d) && |paths| == Size(g, v, d)
  {
    PlainFromPaths(g, v, d);
    PathsFromCount(g, v, d);
    forall p ensures p in paths <==> p in PathsFrom(g, v, d) { InPathsFrom(g, v, d, p); }
    assert paths == PathsFrom(g, v, d);
  }

  /** The walk accepts exactly the values whose unfolded tree is small and plain. */
  lemma AcceptedIffSmallPlainTree(g: seq<Node>, v: Ref, d: nat, n: nat)
    requires Closed(g) && v < |g|
    ensures Plain(g, v, d) && Size(g, v, d) <= n <==> SmallPlainTree(g, v, d, n)
  {
    if Plain(g, v, d) {
      PlainHasNodes(g, v, d);
      PathsFromCount(g, v, d);
    }
    if SmallPlainTree(g, v, d, n) {
      var paths: set<seq<nat>> :| PlainNodes(g, v, d, paths) && |paths| <= n;
      NodesArePlain(g, v, d, paths);
    }
  }

  /** A value that reaches a cycle is refused. */
  lemma {:induction false} CyclicRefused(g: seq<Node>, v: Ref, d: nat, stem: seq<nat>, loop: seq<nat>)
    requires Closed(g) && v < |g| && IsPath(g, v, stem)
    requires loop != [] && IsPath(g, End(g, v, stem), loop) && End(g, End(g, v, stem), loop) == End(g, v, stem)
    ensures !Plain(g, v, d)
  {
    if Plain(g, v, d) {
      PlainAlongPath(g, v, d, stem);
      LoopNotPlain(g, End(g, v, stem), d - |stem|, loop);
    }
  }

  lemma {:induction false} LoopNotPlain(g: seq<Node>, v: Ref, d: nat, loop: seq<nat>)
    requires Closed(g) && v < |g| && loop != [] && IsPath(g, v, loop) && End(g, v, loop) == v
    ensures !Plain(g, v, d)
    decreases d
  {
    if Plain(g, v, d) {
      PlainAlongPath(g, v, d, loop);
      LoopNotPlain(g, v, d - |loop|, loop);
    }
  }
}
