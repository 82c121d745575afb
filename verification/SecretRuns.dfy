/**
Whole runs of the calls that save an API key, step by step.

The world acts between any two steps of a call: a program that does not take
the lock may replace the file, another writer may change the model file unless
the rollback guard is held, and the call may fail, be interrupted or crash.  A
comparison and the rename or unlink right after it are one step.  Given what the
world does, a run is determined; the laws below hold for every world.
*/
module SecretRuns {
  import opened Wrappers
  import opened Secrets

  // ------------------------------------------------------------ the world

  datatype Fault = NoFault | Failure | Interrupt | Crash

  /** What the world does around one step of a call. */
  datatype Happening = Happening(write: Option<Content>, model: Option<bool>, fault: Fault)

  type World = nat -> Happening

  /** The file's content after the world's step at `now`. */
  function Seen(w: World, file: Content, now: nat): Content {
    if w(now).write.Some? then w(now).write.value else file
  }

  /** The file's content after the world's steps from `a` up to `b`, if nobody else changes it. */
  function Foreign(w: World, file: Content, a: nat, b: nat): Content {
    if b <= a then file else Seen(w, Foreign(w, file, a, b - 1), b - 1)
  }

  /** The same for whether the model entry is saved. */
  function ModelAfter(w: World, saved: bool, a: nat, b: nat): bool {
    if b <= a then saved
    else if w(b - 1).model.Some? then w(b - 1).model.value
    else ModelAfter(w, saved, a, b - 1)
  }

  lemma {:induction false} ForeignJoin(w: World, file: Content, a: nat, b: nat, c: nat)
    requires a <= b <= c
    ensures Foreign(w, Foreign(w, file, a, b), b, c) == Foreign(w, file, a, c)
  {
    if b < c { ForeignJoin(w, file, a, b, c - 1); }
  }

  lemma {:induction false} ModelJoin(w: World, saved: bool, a: nat, b: nat, c: nat)
    requires a <= b <= c
    ensures ModelAfter(w, ModelAfter(w, saved, a, b), b, c) == ModelAfter(w, saved, a, c)
  {
    if b < c { ModelJoin(w, saved, a, b, c - 1); }
  }

  // ------------------------------------------------------------ steps of a call

  /** One change a call makes to the file: when, what it replaced, and what it put there. */
  datatype Change = Change(at: nat, replaced: Content, put: Content)

  /** The secrets file, the model entry and the temporary files at one moment, and the changes calls have made. */
  datatype Store = Store(now: nat, file: Content, modelSaved: bool, temps: nat, changes: seq<Change>)

  datatype WriteResult = Written(owned: Bytes) | Raised(fault: Fault)

  /** What `model_may_be_saved` does. */
  datatype Answer = No | Yes | Unknown | Aborted

  type Question = Option<bool -> Answer>

  /** The caller's block: whether it saves the model entry, and how it ends. */
  datatype Block = Block(saves: bool, end: Fault)

  datatype Outcome =
    | Success
    | RolledBack
    | Reraised
    | Partial
    | Stopped(fault: Fault)

  predicate TakenBack(o: Outcome) { o.RolledBack? || o.Reraised? }

  /** There is no guard, or it was taken. */
  predicate GuardTaken(guard: Option<Fault>) { guard.None? || guard.value == NoFault }

  /** The world's turn. The guard keeps other writers off the model file. */
  function Pass(w: World, s: Store, guarded: bool): Store {
    s.(now := s.now + 1, file := Seen(w, s.file, s.now),
       modelSaved := if guarded then s.modelSaved else ModelAfter(w, s.modelSaved, s.now, s.now + 1))
  }

  function Put(s: Store, content: Content): Store {
    s.(file := content, changes := s.changes + [Change(s.now, s.file, content)])
  }

  predicate Sudden(fault: Fault) {
    fault == Interrupt || fault == Crash
  }

  /** An interrupt or a crash may come right after a replacement. */
  function Land(w: World, s: Store, guarded: bool): (Store, Fault) {
    if Sudden(w(s.now).fault) then (Pass(w, s, guarded), w(s.now).fault) else (s, NoFault)
  }

  /** Writes a temporary file, compares the file with `expected` and renames over it. */
  function Swap(w: World, s: Store, guarded: bool, content: Content, expected: Content): (Store, Fault) {
    var t := Pass(w, s, guarded);
    if w(s.now).fault == Crash then (t.(temps := t.temps + 1), Crash)
    else if w(s.now).fault != NoFault then (t, w(s.now).fault)
    else if t.file != expected then (t, Failure)
    else Land(w, Put(t, content), guarded)
  }

  function Write(w: World, s: Store, name: string, value: string, createOnly: bool): (Store, WriteResult) {
    if !ValidName(name) || value == "" then (s, Raised(Failure))
    else
      var a := Pass(w, s, false);
      if w(s.now).fault != NoFault then (a, Raised(w(s.now).fault))
      else
        var b := Pass(w, a, false);
        if w(a.now).fault != NoFault then (b, Raised(w(a.now).fault))
        else match Prepare(b.file, name, value, createOnly)
          case Err(_) => (b, Raised(Failure))
          case Ok(bytes) =>
            var (c, fault) := Swap(w, b, false, Some(bytes), a.file);
            (c, if fault == NoFault then Written(bytes) else Raised(fault))
  }

  /** Puts the original content back over exactly the bytes this call wrote. */
  function Remove(w: World, s: Store, guarded: bool, original: Content, owned: Bytes): (Store, Fault) {
    var t := Pass(w, s, guarded);
    if w(s.now).fault != NoFault then (t, w(s.now).fault)
    else if t.file != Some(owned) then (t, Failure)
    else if original.Some? then Swap(w, t, guarded, original, Some(owned))
    else Land(w, Put(t, None), guarded)
  }

  /** Asks whether the model entry may be saved: nothing if the key may be removed, else how the handler ends. */
  function Ask(w: World, s: Store, guarded: bool, mayBeSaved: Question): (Store, Option<Outcome>) {
    if mayBeSaved.None? then (s, None)
    else
      var t := Pass(w, s, guarded);
      if Sudden(w(s.now).fault) then (t, Some(Stopped(w(s.now).fault)))
      else match if w(s.now).fault == Failure then Unknown else mayBeSaved.value(t.modelSaved)
        case Aborted => (t, Some(Stopped(Interrupt)))
        case No => (t, None)
        case _ => (t, Some(Partial))
  }

  /** The question and the removal, under the guard if there is one. */
  function AskAndRemove(w: World, s: Store, guarded: bool, original: Content, owned: Bytes,
                        error: Fault, mayBeSaved: Question): (Store, Outcome) {
    var (t, end) := Ask(w, s, guarded, mayBeSaved);
    if end.Some? then (t, end.value)
    else
      var (u, fault) := Remove(w, t, guarded, original, owned);
      (u, if fault == Failure then Partial
          else if fault != NoFault then Stopped(fault)
          else if error == Failure then RolledBack else Reraised)
  }

  /** The handler that runs when the caller's block has failed with `error`. */
  function Undo(w: World, s: Store, original: Content, owned: Bytes, error: Fault,
                mayBeSaved: Question, guard: Option<Fault>): (Store, Outcome) {
    if guard == Some(Failure) then (s, Partial)
    else if guard.Some? && guard.value != NoFault then (s, Stopped(guard.value))
    else AskAndRemove(w, s, guard.Some?, original, owned, error, mayBeSaved)
  }

  /** Runs the caller's block, then checks that the key is still what was written. */
  function RunBlock(w: World, s: Store, block: Block, owned: Bytes): (Store, Fault) {
    var a := Pass(w, s, false);
    if w(s.now).fault != NoFault then (a, w(s.now).fault)
    else
      var b := Pass(w, a.(modelSaved := a.modelSaved || block.saves), false);
      if w(a.now).fault != NoFault then (b, w(a.now).fault)
      else if block.end != NoFault then (b, block.end)
      else
        var c := Pass(w, b, false);
        (c, if w(b.now).fault != NoFault then w(b.now).fault else if c.file != Some(owned) then Failure else NoFault)
  }

  /** The first half of the transaction: reads the original and adds the key. */
  function AddKey(w: World, s: Store, name: string, value: string): (Store, WriteResult) {
    var a := Pass(w, s, false);
    if w(s.now).fault != NoFault then (a, Raised(w(s.now).fault)) else Write(w, a, name, value, true)
  }

  /** The block with its handler. */
  function GuardBlock(w: World, s: Store, block: Block, original: Content, owned: Bytes,
                      mayBeSaved: Question, guard: Option<Fault>): (Store, Outcome) {
    var (t, error) := RunBlock(w, s, block, owned);
    if error == NoFault then (t, Success)
    else if error == Crash then (t, Stopped(Crash))
    else Undo(w, t, original, owned, error, mayBeSaved, guard)
  }

  /** The content the transaction finds at its start. */
  function Original(w: World, s: Store): Content {
    Seen(w, s.file, s.now)
  }

  function Transaction(w: World, s: Store, name: string, value: string, block: Block,
                       mayBeSaved: Question, guard: Option<Fault>): (Store, Outcome) {
    var (t, r) := AddKey(w, s, name, value);
    match r
    case Raised(fault) => (t, Stopped(fault))
    case Written(owned) => GuardBlock(w, t, block, Original(w, s), owned, mayBeSaved, guard)
  }

  // ------------------------------------------------------------ the file between the changes

  /** From `file` at `a` to `after` at `b`, every content of the file came from the world or from one of the changes. */
  predicate Trace(w: World, file: Content, a: nat, changes: seq<Change>, after: Content, b: nat)
    decreases |changes|
  {
    if changes == [] then a <= b && after == Foreign(w, file, a, b)
    else
      var c := changes[0];
      a <= c.at && c.replaced == Foreign(w, file, a, c.at) && Trace(w, c.put, c.at, changes[1..], after, b)
  }

  /** `t` comes out of `s` by the world's steps and the new changes alone. */
  predicate Follows(w: World, s: Store, t: Store) {
    && s.now <= t.now && s.changes <= t.changes
    && Trace(w, s.file, s.now, t.changes[|s.changes|..], t.file, t.now)
  }

  lemma {:induction false} TraceJoin(w: World, f: Content, a: nat, xs: seq<Change>, g: Content, b: nat,
                                     ys: seq<Change>, h: Content, c: nat)
    requires Trace(w, f, a, xs, g, b) && Trace(w, g, b, ys, h, c)
    ensures Trace(w, f, a, xs + ys, h, c)
    decreases |xs|
  {
    if xs == [] {
      assert xs + ys == ys;
      if ys == [] {
        TraceForward(w, g, b, ys, h, c);
        ForeignJoin(w, f, a, b, c);
      } else {
        ForeignJoin(w, f, a, b, ys[0].at);
      }
    } else {
      assert (xs + ys)[1..] == xs[1..] + ys;
      TraceJoin(w, xs[0].put, xs[0].at, xs[1..], g, b, ys, h, c);
    }
  }

  lemma {:induction false} TraceForward(w: World, f: Content, a: nat, xs: seq<Change>, g: Content, b: nat)
    requires Trace(w, f, a, xs, g, b)
    ensures a <= b
    decreases |xs|
  {
    if xs != [] { TraceForward(w, xs[0].put, xs[0].at, xs[1..], g, b); }
  }

  lemma FollowsJoin(w: World, s: Store, t: Store, u: Store)
    requires Follows(w, s, t) && Follows(w, t, u)
    ensures Follows(w, s, u)
  {
    var xs, ys := t.changes[|s.changes|..], u.changes[|t.changes|..];
    TraceJoin(w, s.file, s.now, xs, t.file, t.now, ys, u.file, u.now);
    assert u.changes[|s.changes|..] == xs + ys;
  }

  lemma PassFollows(w: World, s: Store, guarded: bool)
    ensures Follows(w, s, Pass(w, s, guarded))
  {
    assert Foreign(w, s.file, s.now, s.now) == s.file;
  }

  lemma PutFollows(w: World, s: Store, content: Content)
    ensures Follows(w, s, Put(s, content))
  {
    var c := Change(s.now, s.file, content);
    assert Put(s, content).changes[|s.changes|..] == [c];
    assert [c][1..] == [];
  }

  lemma LandFollows(w: World, s: Store, guarded: bool)
    ensures Follows(w, s, Land(w, s, guarded).0)
  {
    PassFollows(w, s, guarded);
    assert s.changes[|s.changes|..] == [];
  }

  lemma PutAndLand(w: World, s: Store, guarded: bool, content: Content)
    ensures Follows(w, s, Land(w, Put(s, content), guarded).0)
  {
    PutFollows(w, s, content);
    LandFollows(w, Put(s, content), guarded);
    FollowsJoin(w, s, Put(s, content), Land(w, Put(s, content), guarded).0);
  }

  lemma SwapFollows(w: World, s: Store, guarded: bool, content: Content, expected: Content)
    ensures Follows(w, s, Swap(w, s, guarded, content, expected).0)
  {
    var t := Pass(w, s, guarded);
    PassFollows(w, s, guarded);
    PutAndLand(w, t, guarded, content);
    if w(s.now).fault == NoFault && t.file == expected {
      FollowsJoin(w, s, t, Swap(w, s, guarded, content, expected).0);
    }
  }

  lemma WriteFollows(w: World, s: Store, name: string, value: string, createOnly: bool)
    ensures Follows(w, s, Write(w, s, name, value, createOnly).0)
  {
    var t := Write(w, s, name, value, createOnly).0;
    var a := Pass(w, s, false);
    var b := Pass(w, a, false);
    PassFollows(w, s, false);
    PassFollows(w, a, false);
    FollowsJoin(w, s, a, b);
    if t == s {
      assert s.changes[|s.changes|..] == [];
    } else if t != a && t != b {
      match Prepare(b.file, name, value, createOnly)
      case Err(_) =>
      case Ok(bytes) =>
        SwapFollows(w, b, false, Some(bytes), a.file);
        FollowsJoin(w, s, b, t);
    }
  }

  lemma RemoveFollows(w: World, s: Store, guarded: bool, original: Content, owned: Bytes)
    ensures Follows(w, s, Remove(w, s, guarded, original, owned).0)
  {
    var t := Pass(w, s, guarded);
    PassFollows(w, s, guarded);
    if w(s.now).fault == NoFault && t.file == Some(owned) {
      SwapFollows(w, t, guarded, original, Some(owned));
      PutAndLand(w, t, guarded, None);
      FollowsJoin(w, s, t, Remove(w, s, guarded, original, owned).0);
    }
  }

  lemma UndoFollows(w: World, s: Store, original: Content, owned: Bytes, error: Fault,
                    mayBeSaved: Question, guard: Option<Fault>)
    ensures Follows(w, s, Undo(w, s, original, owned, error, mayBeSaved, guard).0)
  {
    var t := Ask(w, s, guard.Some?, mayBeSaved).0;
    assert s.changes[|s.changes|..] == [];
    PassFollows(w, s, guard.Some?);
    RemoveFollows(w, t, guard.Some?, original, owned);
    FollowsJoin(w, s, t, Remove(w, t, guard.Some?, original, owned).0);
  }

  lemma BlockFollows(w: World, s: Store, block: Block, owned: Bytes)
    ensures Follows(w, s, RunBlock(w, s, block, owned).0)
    ensures RunBlock(w, s, block, owned).0.changes == s.changes
  {
    var a := Pass(w, s, false);
    var a' := a.(modelSaved := a.modelSaved || block.saves);
    var b := Pass(w, a', false);
    PassFollows(w, s, false);
    PassFollows(w, a', false);
    PassFollows(w, b, false);
    FollowsJoin(w, s, a', b);
    FollowsJoin(w, s, b, Pass(w, b, false));
  }

  /**
  The journal is the whole truth about the file: over a transaction, in every
  world, each content of the file came from the world or from a recorded change,
  and each change replaced what the world had left.
  */
  lemma TransactionFollows(w: World, s: Store, name: string, value: string, block: Block,
                           mayBeSaved: Question, guard: Option<Fault>)
    ensures Follows(w, s, Transaction(w, s, name, value, block, mayBeSaved, guard).0)
  {
    var a := Pass(w, s, false);
    var (t, r) := AddKey(w, s, name, value);
    PassFollows(w, s, false);
    WriteFollows(w, a, name, value, true);
    FollowsJoin(w, s, a, Write(w, a, name, value, true).0);
    if r.Written? {
      var (b, error) := RunBlock(w, t, block, r.owned);
      BlockFollows(w, t, block, r.owned);
      UndoFollows(w, b, Original(w, s), r.owned, error, mayBeSaved, guard);
      FollowsJoin(w, s, t, b);
      FollowsJoin(w, s, b, Undo(w, b, Original(w, s), r.owned, error, mayBeSaved, guard).0);
    }
  }

  /** Where the file's content at the end comes from. */
  lemma FileComesFrom(w: World, s: Store, t: Store)
    requires Follows(w, s, t)
    ensures t.changes == s.changes ==> t.file == Foreign(w, s.file, s.now, t.now)
    ensures |t.changes| > |s.changes| ==>
      var last := t.changes[|t.changes| - 1]; last.at <= t.now && t.file == Foreign(w, last.put, last.at, t.now)
  {
    TraceEnds(w, s.file, s.now, t.changes[|s.changes|..], t.file, t.now);
  }

  lemma {:induction false} TraceEnds(w: World, f: Content, a: nat, xs: seq<Change>, g: Content, b: nat)
    requires Trace(w, f, a, xs, g, b)
    ensures xs == [] ==> g == Foreign(w, f, a, b)
    ensures xs != [] ==> xs[|xs| - 1].at <= b && g == Foreign(w, xs[|xs| - 1].put, xs[|xs| - 1].at, b)
    decreases |xs|
  {
    if xs != [] {
      TraceEnds(w, xs[0].put, xs[0].at, xs[1..], g, b);
      TraceForward(w, xs[0].put, xs[0].at, xs[1..], g, b);
    }
  }

  // ------------------------------------------------------------ one write

  /** What the file holds after the world's next `k` steps, if no call changes it. */
  function ReadAt(w: World, s: Store, k: nat): Content {
    Foreign(w, s.file, s.now, s.now + k)
  }

  predicate Quiet(w: World, a: nat, b: nat) {
    forall i: nat | a <= i < b :: w(i).fault == NoFault
  }

  lemma QuietSteps(w: World, a: nat)
    ensures Quiet(w, a, a + 1) <==> w(a).fault == NoFault
    ensures Quiet(w, a, a + 2) <==> Quiet(w, a, a + 1) && w(a + 1).fault == NoFault
    ensures Quiet(w, a, a + 3) <==> Quiet(w, a, a + 2) && w(a + 2).fault == NoFault
  {
  }

  lemma ReadSteps(w: World, s: Store)
    ensures ReadAt(w, s, 0) == s.file && ReadAt(w, s, 1) == Seen(w, s.file, s.now)
    ensures ReadAt(w, s, 2) == Seen(w, ReadAt(w, s, 1), s.now + 1)
    ensures ReadAt(w, s, 3) == Seen(w, ReadAt(w, s, 2), s.now + 2)
  {
    assert Foreign(w, s.file, s.now, s.now) == s.file;
    assert Foreign(w, s.file, s.now, s.now + 1) == Seen(w, s.file, s.now);
    assert Foreign(w, s.file, s.now, s.now + 2) == Seen(w, Foreign(w, s.file, s.now, s.now + 1), s.now + 1);
  }

  /** What the three reads of a write lead to. */
  function ReadsOutcome(w: World, s: Store, name: string, value: string, createOnly: bool): Result<Bytes> {
    WriteOutcome(ReadAt(w, s, 1), ReadAt(w, s, 2), ReadAt(w, s, 3), name, value, createOnly)
  }

  /** A replacement happens exactly when nothing hits the step before it and the file is then as expected. */
  lemma SwapRun(w: World, s: Store, guarded: bool, content: Content, expected: Content)
    ensures var (t, fault) := Swap(w, s, guarded, content, expected);
      var swapped := w(s.now).fault == NoFault && Seen(w, s.file, s.now) == expected;
      && t.changes == (if swapped then s.changes + [Change(s.now + 1, expected, content)] else s.changes)
      && (fault == NoFault <==> swapped && !Sudden(w(s.now + 1).fault))
      && (fault == NoFault ==> t.file == content && t.now == s.now + 1)
      && (fault == Failure ==> !swapped)
      && (fault == Interrupt ==> (swapped <==> t.now == s.now + 2))
      && (fault != Crash ==> t.temps == s.temps)
      && (guarded ==> t.modelSaved == s.modelSaved)
      && t.now <= s.now + 2
  {
  }

  /**
  A write succeeds exactly when its reads agree and nothing hits it.  It changes
  the file once or not at all, at its fourth step, with what it prepared, over the
  content it first read; a refused or failed write changes nothing, and an
  interrupted one has changed the file exactly when it came right after the rename.
  */
  predicate WriteDone(w: World, s: Store, name: string, value: string, createOnly: bool, t: Store, r: WriteResult) {
    var outcome := ReadsOutcome(w, s, name, value, createOnly);
    && (r.Written? <==> outcome.Ok? && Quiet(w, s.now, s.now + 3) && !Sudden(w(s.now + 3).fault))
    && (r.Written? ==> outcome == Ok(r.owned) && t.file == Some(r.owned) && t.now == s.now + 3)
    && t.changes == (if outcome.Ok? && Quiet(w, s.now, s.now + 3)
                     then s.changes + [Change(s.now + 3, ReadAt(w, s, 1), Some(outcome.value))] else s.changes)
    && (r.Raised? ==> r.fault != NoFault && t.now <= s.now + 4)
    && (r == Raised(Failure) ==> t.changes == s.changes)
    && (r == Raised(Interrupt) ==> (t.changes != s.changes <==> t.now == s.now + 4))
    && (r != Raised(Crash) ==> t.temps == s.temps)
  }

  lemma WriteRun(w: World, s: Store, name: string, value: string, createOnly: bool)
    ensures var (t, r) := Write(w, s, name, value, createOnly); WriteDone(w, s, name, value, createOnly, t, r)
  {
    ReadSteps(w, s);
    QuietSteps(w, s.now);
    var a := Pass(w, s, false);
    var b := Pass(w, a, false);
    if ValidName(name) && value != "" && Quiet(w, s.now, s.now + 2) {
      match Prepare(b.file, name, value, createOnly)
      case Err(_) =>
      case Ok(bytes) => SwapRun(w, b, false, Some(bytes), a.file);
    }
  }

  // ------------------------------------------------------------ the first half: adding the key

  /** What the reads of the first half lead to. Its own first read is the one rollback restores. */
  function KeyOutcome(w: World, s: Store, name: string, value: string): Result<Bytes> {
    WriteOutcome(ReadAt(w, s, 2), ReadAt(w, s, 3), ReadAt(w, s, 4), name, value, true)
  }

  /** The first half puts the new key in the file: its reads agree and nothing hits it before. */
  predicate Adds(w: World, s: Store, name: string, value: string) {
    KeyOutcome(w, s, name, value).Ok? && Quiet(w, s.now, s.now + 4)
  }

  /** What a new key looks like in the file. */
  predicate Holds(content: Content, name: string, value: string) {
    content.Some? && name in EnvOf(content) && EnvOf(content)[name] == Text(value)
  }

  lemma WriteModel(w: World, s: Store, name: string, value: string, createOnly: bool)
    ensures var t := Write(w, s, name, value, createOnly).0;
      t.now >= s.now && t.modelSaved == ModelAfter(w, s.modelSaved, s.now, t.now)
  {
    var a := Pass(w, s, false);
    var b := Pass(w, a, false);
    var c := Pass(w, b, false);
    var d := Pass(w, c, false);
    assert ModelAfter(w, s.modelSaved, s.now, s.now) == s.modelSaved;
    ModelJoin(w, s.modelSaved, s.now, a.now, b.now);
    ModelJoin(w, s.modelSaved, s.now, b.now, c.now);
    ModelJoin(w, s.modelSaved, s.now, c.now, d.now);
  }

  /** What the first half leads to: the same as one write does, one step later,
      with the content found at the start kept aside. */
  predicate KeyAdded(w: World, s: Store, name: string, value: string, t: Store, r: WriteResult) {
    var outcome := KeyOutcome(w, s, name, value);
    && (r.Written? <==> outcome.Ok? && Quiet(w, s.now, s.now + 4) && !Sudden(w(s.now + 4).fault))
    && (r.Written? ==> outcome == Ok(r.owned) && t.file == Some(r.owned) && t.now == s.now + 4)
    && t.changes == (if Adds(w, s, name, value)
                     then s.changes + [Change(s.now + 4, ReadAt(w, s, 2), Some(outcome.value))] else s.changes)
    && (r.Raised? ==> r.fault != NoFault && t.now <= s.now + 5)
    && (r == Raised(Failure) ==> !Adds(w, s, name, value))
    && (r == Raised(Interrupt) ==> (Adds(w, s, name, value) <==> t.now == s.now + 5))
    && (r != Raised(Crash) ==> t.temps == s.temps)
    && (outcome.Ok? ==> name !in EnvOf(ReadAt(w, s, 3)) && Holds(Some(outcome.value), name, value))
    && t.modelSaved == ModelAfter(w, s.modelSaved, s.now, t.now)
  }

  lemma ReadLater(w: World, s: Store, k: nat)
    ensures ReadAt(w, Pass(w, s, false), k) == ReadAt(w, s, k + 1)
  {
    ReadSteps(w, s);
    ForeignJoin(w, s.file, s.now, s.now + 1, s.now + 1 + k);
  }

  lemma WriteAddsKey(w: World, s: Store, a: Store, name: string, value: string, t: Store, r: WriteResult)
    requires a == Pass(w, s, false) && w(s.now).fault == NoFault
    requires WriteDone(w, a, name, value, true, t, r)
    requires t.modelSaved == ModelAfter(w, a.modelSaved, a.now, t.now) && a.now <= t.now
    ensures KeyAdded(w, s, name, value, t, r)
  {
    ReadLater(w, s, 1);
    ReadLater(w, s, 2);
    ReadLater(w, s, 3);
    ModelJoin(w, s.modelSaved, s.now, a.now, t.now);
    PrepareUpdates(ReadAt(w, s, 3), name, value, true);
    assert Quiet(w, s.now, s.now + 4) <==> Quiet(w, a.now, a.now + 3);
  }

  lemma AddKeyRun(w: World, s: Store, name: string, value: string)
    ensures var (t, r) := AddKey(w, s, name, value); KeyAdded(w, s, name, value, t, r)
  {
    var a := Pass(w, s, false);
    if w(s.now).fault == NoFault {
      var (t, r) := Write(w, a, name, value, true);
      WriteRun(w, a, name, value, true);
      WriteModel(w, a, name, value, true);
      WriteAddsKey(w, s, a, name, value, t, r);
    } else {
      PrepareUpdates(ReadAt(w, s, 3), name, value, true);
    }
  }

  // ------------------------------------------------------------ the caller's block

  /** The steps the block takes before it ends. */
  function BlockSteps(w: World, start: nat, block: Block): nat {
    if w(start).fault != NoFault then 1
    else if w(start + 1).fault != NoFault || block.end != NoFault then 2
    else 3
  }

  /** Whether the model entry is saved when the block has ended: what others do to it, and the block's own save after its first step. */
  function ModelAfterBlock(w: World, saved: bool, start: nat, block: Block): bool {
    var first := ModelAfter(w, saved, start, start + 1);
    ModelAfter(w, first || (block.saves && w(start).fault == NoFault), start + 1, start + BlockSteps(w, start, block))
  }

  /** The block succeeds exactly when nothing hits it, it ends well by itself and the key is then as it was written. */
  lemma BlockRun(w: World, s: Store, block: Block, owned: Bytes)
    ensures var (t, error) := RunBlock(w, s, block, owned);
      && t.now == s.now + BlockSteps(w, s.now, block)
      && (error == NoFault <==> Quiet(w, s.now, s.now + 3) && block.end == NoFault && ReadAt(w, s, 3) == Some(owned))
      && t.file == Foreign(w, s.file, s.now, t.now)
      && t.changes == s.changes && t.temps == s.temps
      && t.modelSaved == ModelAfterBlock(w, s.modelSaved, s.now, block)
  {
    BlockFollows(w, s, block, owned);
    FileComesFrom(w, s, RunBlock(w, s, block, owned).0);
    ReadSteps(w, s);
    var a := Pass(w, s, false);
    var m := a.modelSaved || block.saves;
    assert ModelAfter(w, m, s.now + 1, s.now + 1) == m;
    ModelJoin(w, m, s.now + 1, s.now + 2, s.now + 3);
  }

  // ------------------------------------------------------------ the handler

  /** The world's steps up to the one right after the rollback's replacement. */
  function StepsToUndo(original: Content, mayBeSaved: Question): nat {
    (if mayBeSaved.Some? then 1 else 0) + (if original.None? then 2 else 3)
  }

  /** The handler, started at `h`, is told that the model entry as it then is is not saved. */
  predicate ToldNo(w: World, h: Store, guarded: bool, mayBeSaved: Question) {
    mayBeSaved.Some? ==> w(h.now).fault == NoFault && mayBeSaved.value(Pass(w, h, guarded).modelSaved) == No
  }

  /** After each step from `a` up to `b` the file holds these bytes. */
  predicate Stays(w: World, h: Store, owned: Bytes, a: nat, b: nat) {
    forall k: nat | a < k <= b :: Foreign(w, h.file, h.now, k) == Some(owned)
  }

  /** ... and nothing keeps it from putting the original back. */
  predicate Removable(w: World, h: Store, guarded: bool, original: Content, owned: Bytes, mayBeSaved: Question) {
    var from := h.now + (if mayBeSaved.Some? then 1 else 0);
    var to := h.now + StepsToUndo(original, mayBeSaved) - 1;
    ToldNo(w, h, guarded, mayBeSaved) && Quiet(w, from, to) && Stays(w, h, owned, from, to)
  }

  /** What the removal leads to, given whether it puts the original back. */
  predicate RemoveDone(s: Store, original: Content, owned: Bytes, removed: bool, last: Fault, t: Store, fault: Fault) {
    var end := s.now + StepsToUndo(original, None) - 1;
    && t.changes == (if removed then s.changes + [Change(end, Some(owned), original)] else s.changes)
    && (fault == NoFault <==> removed && !Sudden(last))
    && (fault == NoFault ==> t.file == original && t.now == end)
    && (fault == Failure ==> !removed)
    && (fault == Interrupt ==> (removed <==> t.now == end + 1))
    && (fault != Crash ==> t.temps == s.temps)
    && t.now >= s.now
  }

  lemma RemoveRun(w: World, h: Store, s: Store, guarded: bool, original: Content, owned: Bytes)
    requires h.now <= s.now && s.file == Foreign(w, h.file, h.now, s.now)
    ensures var (t, fault) := Remove(w, s, guarded, original, owned);
      var end := s.now + StepsToUndo(original, None) - 1;
      && RemoveDone(s, original, owned, Quiet(w, s.now, end) && Stays(w, h, owned, s.now, end), w(end).fault, t, fault)
      && (guarded ==> t.modelSaved == s.modelSaved)
  {
    QuietSteps(w, s.now);
    var t := Pass(w, s, guarded);
    assert t.file == Foreign(w, h.file, h.now, s.now + 1);
    assert Seen(w, t.file, t.now) == Foreign(w, h.file, h.now, s.now + 2);
    if original.Some? { SwapRun(w, t, guarded, original, Some(owned)); }
  }

  /** What the handler leads to, given whether it removes the key. */
  predicate Undone(h: Store, original: Content, owned: Bytes, error: Fault, mayBeSaved: Question,
                   removed: bool, last: Fault, t: Store, o: Outcome) {
    var end := h.now + StepsToUndo(original, mayBeSaved) - 1;
    && t.changes == (if removed then h.changes + [Change(end, Some(owned), original)] else h.changes)
    && (TakenBack(o) <==> removed && !Sudden(last))
    && (TakenBack(o) ==> t.file == original && t.now == end && o == if error == Failure then RolledBack else Reraised)
    && (TakenBack(o) || o.Partial? || (o.Stopped? && Sudden(o.fault)))
    && (o == Partial ==> !removed)
    && (o == Stopped(Interrupt) ==> (removed <==> t.now == end + 1))
    && (o != Stopped(Crash) ==> t.temps == h.temps)
    && t.now >= h.now
  }

  lemma RemovedUndoes(h: Store, s: Store, original: Content, owned: Bytes, error: Fault, mayBeSaved: Question,
                      removed: bool, last: Fault, t: Store, fault: Fault, o: Outcome)
    requires s.changes == h.changes && s.temps == h.temps && s.now == h.now + if mayBeSaved.Some? then 1 else 0
    requires RemoveDone(s, original, owned, removed, last, t, fault)
    requires o == if fault == Failure then Partial
                  else if fault != NoFault then Stopped(fault)
                  else if error == Failure then RolledBack else Reraised
    ensures Undone(h, original, owned, error, mayBeSaved, removed, last, t, o)
  {
  }

  lemma AskAndRemoveRun(w: World, h: Store, guarded: bool, original: Content, owned: Bytes,
                        error: Fault, mayBeSaved: Question)
    ensures var (t, o) := AskAndRemove(w, h, guarded, original, owned, error, mayBeSaved);
      var last := w(h.now + StepsToUndo(original, mayBeSaved) - 1).fault;
      && Undone(h, original, owned, error, mayBeSaved, Removable(w, h, guarded, original, owned, mayBeSaved), last, t, o)
      && (guarded ==> t.modelSaved == h.modelSaved)
  {
    var (s, end) := Ask(w, h, guarded, mayBeSaved);
    var (t, o) := AskAndRemove(w, h, guarded, original, owned, error, mayBeSaved);
    if ToldNo(w, h, guarded, mayBeSaved) {
      assert end.None? && s == if mayBeSaved.Some? then Pass(w, h, guarded) else h;
      assert Foreign(w, h.file, h.now, h.now) == h.file;
      RemoveRun(w, h, s, guarded, original, owned);
      RemovedUndoes(h, s, original, owned, error, mayBeSaved, Removable(w, h, guarded, original, owned, mayBeSaved),
                    w(h.now + StepsToUndo(original, mayBeSaved) - 1).fault,
                    t, Remove(w, s, guarded, original, owned).1, o);
    } else {
      assert end.Some?;
    }
  }

  /**
  The handler puts the original back exactly when it has the guard, is told no,
  nothing hits it and the file holds what this call wrote at each comparison; in
  every other case it makes no change.
  */
  lemma UndoRun(w: World, h: Store, original: Content, owned: Bytes, error: Fault,
                mayBeSaved: Question, guard: Option<Fault>)
    ensures var (t, o) := Undo(w, h, original, owned, error, mayBeSaved, guard);
      var removed := GuardTaken(guard) && Removable(w, h, guard.Some?, original, owned, mayBeSaved);
      var last := w(h.now + StepsToUndo(original, mayBeSaved) - 1).fault;
      && Undone(h, original, owned, error, mayBeSaved, removed, last, t, o)
      && (guard.Some? ==> t.modelSaved == h.modelSaved)
  {
    AskAndRemoveRun(w, h, guard.Some?, original, owned, error, mayBeSaved);
  }

  // ------------------------------------------------------------ the transaction

  /** When the block has ended. */
  function BlockEnd(w: World, s: Store, block: Block): nat {
    s.now + 4 + BlockSteps(w, s.now + 4, block)
  }

  /** Whether the model entry is saved then. */
  function ModelAtBlockEnd(w: World, s: Store, block: Block): bool {
    ModelAfterBlock(w, ModelAfter(w, s.modelSaved, s.now, s.now + 4), s.now + 4, block)
  }

  /** The block, started at `s`, fails and its handler removes the key. */
  predicate BlockRemoves(w: World, s: Store, block: Block, original: Content, owned: Bytes,
                         mayBeSaved: Question, guard: Option<Fault>) {
    var (h, error) := RunBlock(w, s, block, owned);
    && (error == Failure || error == Interrupt) && GuardTaken(guard)
    && Removable(w, h, guard.Some?, original, owned, mayBeSaved)
  }

  /** The same for the whole transaction. */
  predicate Removes(w: World, s: Store, name: string, value: string, block: Block,
                    mayBeSaved: Question, guard: Option<Fault>) {
    var (t, r) := AddKey(w, s, name, value);
    r.Written? && BlockRemoves(w, t, block, Original(w, s), r.owned, mayBeSaved, guard)
  }

  /** What the block and its handler lead to, given whether the handler removes the key. */
  predicate BlockGuarded(w: World, s: Store, block: Block, original: Content, owned: Bytes,
                         mayBeSaved: Question, removed: bool, t: Store, o: Outcome) {
    var end := s.now + BlockSteps(w, s.now, block) + StepsToUndo(original, mayBeSaved) - 1;
    && t.changes == (if removed then s.changes + [Change(end, Some(owned), original)] else s.changes)
    && (TakenBack(o) <==> removed && !Sudden(w(end).fault))
    && (TakenBack(o) ==> t.file == original)
    && (o.Success? || o.Partial? ==> !removed)
    && o != Stopped(Failure) && t.now > s.now
    && (o == Stopped(Interrupt) ==> (removed <==> t.now == end + 1))
    && (o != Stopped(Crash) ==> t.temps == s.temps)
  }

  lemma UndoneGuards(w: World, s: Store, block: Block, original: Content, owned: Bytes, mayBeSaved: Question,
                     h: Store, error: Fault, removed: bool, t: Store, o: Outcome)
    requires h.now == s.now + BlockSteps(w, s.now, block) && h.changes == s.changes && h.temps == s.temps
    requires Undone(h, original, owned, error, mayBeSaved, removed,
                    w(h.now + StepsToUndo(original, mayBeSaved) - 1).fault, t, o)
    ensures BlockGuarded(w, s, block, original, owned, mayBeSaved, removed, t, o)
  {
  }

  lemma GuardBlockRun(w: World, s: Store, block: Block, original: Content, owned: Bytes,
                      mayBeSaved: Question, guard: Option<Fault>)
    ensures var (t, o) := GuardBlock(w, s, block, original, owned, mayBeSaved, guard);
      var removed := BlockRemoves(w, s, block, original, owned, mayBeSaved, guard);
      BlockGuarded(w, s, block, original, owned, mayBeSaved, removed, t, o)
  {
    var (h, error) := RunBlock(w, s, block, owned);
    var (t, o) := GuardBlock(w, s, block, original, owned, mayBeSaved, guard);
    BlockRun(w, s, block, owned);
    if error == NoFault || error == Crash {
      assert t == h;
    } else {
      UndoRun(w, h, original, owned, error, mayBeSaved, guard);
      assert (t, o) == Undo(w, h, original, owned, error, mayBeSaved, guard);
      UndoneGuards(w, s, block, original, owned, mayBeSaved, h, error,
                   BlockRemoves(w, s, block, original, owned, mayBeSaved, guard), t, o);
    }
  }

  /** When the handler puts the original back. */
  function RemovedAt(w: World, s: Store, block: Block, mayBeSaved: Question): nat {
    BlockEnd(w, s, block) + StepsToUndo(Original(w, s), mayBeSaved) - 1
  }

  /**
  The file is changed at most twice.  The first change puts the new key there;
  the second happens exactly when the handler removes the key, and puts what was
  found at the start back over exactly the bytes this call wrote.
  */
  predicate ChangedAtMostTwice(w: World, s: Store, name: string, value: string, block: Block, mayBeSaved: Question,
                               removed: bool, t: Store) {
    var outcome := KeyOutcome(w, s, name, value);
    var added := Adds(w, s, name, value);
    && (added ==> Holds(Some(outcome.value), name, value))
    && (removed ==> added)
    && (!added ==> t.changes == s.changes)
    && (added && !removed ==> t.changes == s.changes + [Change(s.now + 4, ReadAt(w, s, 2), Some(outcome.value))])
    && (removed ==> t.changes == s.changes + [Change(s.now + 4, ReadAt(w, s, 2), Some(outcome.value))]
                                           + [Change(RemovedAt(w, s, block, mayBeSaved), Some(outcome.value), Original(w, s))])
  }

  /** Every outcome but success and rollback: a refused transaction has added nothing, a
      partial state keeps the key as success does, an interrupt has added or removed it
      exactly when it came after the replacement, and only a crash leaves a temporary file. */
  predicate EndsRight(w: World, s: Store, name: string, value: string, block: Block, mayBeSaved: Question,
                      removed: bool, t: Store, o: Outcome) {
    var added := Adds(w, s, name, value);
    && (o.Success? || o.Partial? ==> added && !removed)
    && (o == Stopped(Failure) ==> !added)
    && (o == Stopped(Interrupt) ==> (added <==> t.now > s.now + 4))
    && (o == Stopped(Interrupt) ==> (removed <==> t.now == RemovedAt(w, s, block, mayBeSaved) + 1))
    && (o != Stopped(Crash) ==> t.temps == s.temps)
  }

  /** A failure is rolled back, or an interrupt raised again, exactly when the key was
      removed and nothing sudden followed; the file then is what was found at the start. */
  predicate RolledBackExactly(w: World, s: Store, block: Block, mayBeSaved: Question, removed: bool, t: Store, o: Outcome) {
    && (TakenBack(o) <==> removed && !Sudden(w(RemovedAt(w, s, block, mayBeSaved)).fault))
    && (TakenBack(o) ==> t.file == Original(w, s))
  }

  lemma HalvesSettle(w: World, s: Store, name: string, value: string, block: Block, mayBeSaved: Question,
                     b: Store, r: WriteResult, removed: bool, t: Store, o: Outcome)
    requires KeyAdded(w, s, name, value, b, r)
    requires r.Raised? ==> t == b && o == Stopped(r.fault) && !removed
    requires r.Written? ==> BlockGuarded(w, b, block, Original(w, s), r.owned, mayBeSaved, removed, t, o)
    ensures ChangedAtMostTwice(w, s, name, value, block, mayBeSaved, removed, t)
    ensures EndsRight(w, s, name, value, block, mayBeSaved, removed, t, o)
    ensures RolledBackExactly(w, s, block, mayBeSaved, removed, t, o)
  {
  }

  /** What a transaction leads to in every world. */
  lemma TransactionSettles(w: World, s: Store, name: string, value: string, block: Block,
                           mayBeSaved: Question, guard: Option<Fault>)
    ensures var (t, o) := Transaction(w, s, name, value, block, mayBeSaved, guard);
      var removed := Removes(w, s, name, value, block, mayBeSaved, guard);
      && ChangedAtMostTwice(w, s, name, value, block, mayBeSaved, removed, t)
      && EndsRight(w, s, name, value, block, mayBeSaved, removed, t, o)
      && RolledBackExactly(w, s, block, mayBeSaved, removed, t, o)
  {
    var (b, r) := AddKey(w, s, name, value);
    var (t, o) := Transaction(w, s, name, value, block, mayBeSaved, guard);
    AddKeyRun(w, s, name, value);
    if r.Written? {
      GuardBlockRun(w, b, block, Original(w, s), r.owned, mayBeSaved, guard);
    }
    HalvesSettle(w, s, name, value, block, mayBeSaved, b, r, Removes(w, s, name, value, block, mayBeSaved, guard), t, o);
  }

  /** The file at the end, whatever the world does: nothing of a call's making
      but its last change, and the world's writes after it. */
  lemma FileAtTheEnd(w: World, s: Store, name: string, value: string, block: Block,
                     mayBeSaved: Question, guard: Option<Fault>)
    ensures var (t, o) := Transaction(w, s, name, value, block, mayBeSaved, guard);
      var n := |s.changes|;
      && s.now <= t.now && n <= |t.changes| <= n + 2
      && (|t.changes| == n ==> t.file == Foreign(w, s.file, s.now, t.now))
      && (|t.changes| == n + 1 ==>
            s.now + 4 <= t.now && KeyOutcome(w, s, name, value).Ok?
            && t.file == Foreign(w, Some(KeyOutcome(w, s, name, value).value), s.now + 4, t.now))
      && (|t.changes| == n + 2 ==>
            t.changes[n + 1].at <= t.now && t.file == Foreign(w, Original(w, s), t.changes[n + 1].at, t.now))
  {
    TransactionSettles(w, s, name, value, block, mayBeSaved, guard);
    TransactionFollows(w, s, name, value, block, mayBeSaved, guard);
    FileComesFrom(w, s, Transaction(w, s, name, value, block, mayBeSaved, guard).0);
  }

  /** The answer covers every saved entry. */
  predicate Covers(mayBeSaved: Question) {
    mayBeSaved.Some? && mayBeSaved.value(true) != No
  }

  /** Whether the model entry is saved when the question about it is asked. */
  function ShownModel(w: World, start: nat, saved: bool, block: Block, guard: Option<Fault>): bool {
    var asked := start + BlockSteps(w, start, block);
    var then' := ModelAfterBlock(w, saved, start, block);
    if guard.Some? then then' else ModelAfter(w, then', asked, asked + 1)
  }

  /** A removal after a block that started at `start`: the question, asked without a
      fault once the block had ended, was answered no about the model entry as it then
      was, and under the guard the entry is still so at the end. */
  predicate Told(w: World, start: nat, saved: bool, block: Block, mayBeSaved: Question, guard: Option<Fault>, t: Store) {
    var shown := ShownModel(w, start, saved, block, guard);
    && (mayBeSaved.Some? ==> w(start + BlockSteps(w, start, block)).fault == NoFault && mayBeSaved.value(shown) == No)
    && (guard.Some? ==> t.modelSaved == shown)
  }

  lemma BlockTold(w: World, s: Store, block: Block, original: Content, owned: Bytes,
                  mayBeSaved: Question, guard: Option<Fault>)
    requires BlockRemoves(w, s, block, original, owned, mayBeSaved, guard)
    ensures var t := GuardBlock(w, s, block, original, owned, mayBeSaved, guard).0;
      Told(w, s.now, s.modelSaved, block, mayBeSaved, guard, t)
  {
    BlockRun(w, s, block, owned);
    var (h, error) := RunBlock(w, s, block, owned);
    UndoRun(w, h, original, owned, error, mayBeSaved, guard);
    assert GuardBlock(w, s, block, original, owned, mayBeSaved, guard) == Undo(w, h, original, owned, error, mayBeSaved, guard);
  }

  /** The key is only removed when the question, asked without a fault once the block
      had ended, was answered no about the model entry as it then was. */
  lemma RemovedOnlyIfToldNo(w: World, s: Store, name: string, value: string, block: Block,
                        mayBeSaved: Question, guard: Option<Fault>)
    requires Removes(w, s, name, value, block, mayBeSaved, guard)
    ensures var t := Transaction(w, s, name, value, block, mayBeSaved, guard).0;
      Told(w, s.now + 4, ModelAfter(w, s.modelSaved, s.now, s.now + 4), block, mayBeSaved, guard, t)
  {
    var (b, r) := AddKey(w, s, name, value);
    AddKeyRun(w, s, name, value);
    BlockTold(w, b, block, Original(w, s), r.owned, mayBeSaved, guard);
  }

  /** Under the guard the entry stays as it was when the question was asked, so an
      answer that covers every saved entry never lets the key of a saved entry go. */
  lemma SavedEntryKeepsItsKey(w: World, s: Store, name: string, value: string, block: Block,
                              mayBeSaved: Question, guard: Option<Fault>)
    requires Removes(w, s, name, value, block, mayBeSaved, guard) && guard.Some?
    ensures var t := Transaction(w, s, name, value, block, mayBeSaved, guard).0;
      (mayBeSaved.Some? ==> mayBeSaved.value(t.modelSaved) == No) && (Covers(mayBeSaved) ==> !t.modelSaved)
  {
    RemovedOnlyIfToldNo(w, s, name, value, block, mayBeSaved, guard);
  }

  /** How a block that starts at `s` succeeds. */
  predicate BlockSucceeds(w: World, s: Store, block: Block, owned: Bytes, t: Store, o: Outcome) {
    && (o.Success? <==> Quiet(w, s.now, s.now + 3) && block.end == NoFault && ReadAt(w, s, 3) == Some(owned))
    && (o.Success? ==> t.file == Some(owned) && t.modelSaved == ModelAfterBlock(w, s.modelSaved, s.now, block))
  }

  lemma BlockSucceedsIff(w: World, s: Store, block: Block, original: Content, owned: Bytes,
                         mayBeSaved: Question, guard: Option<Fault>)
    ensures var (t, o) := GuardBlock(w, s, block, original, owned, mayBeSaved, guard);
      BlockSucceeds(w, s, block, owned, t, o)
  {
    BlockRun(w, s, block, owned);
    var (h, error) := RunBlock(w, s, block, owned);
    if error == NoFault {
      assert GuardBlock(w, s, block, original, owned, mayBeSaved, guard) == (h, Success);
      QuietSteps(w, s.now);
    } else if error != Crash {
      UndoRun(w, h, original, owned, error, mayBeSaved, guard);
    }
  }

  /** The transaction succeeds exactly when its key was added, nothing hits the
      block, and the key is as it was written at the end; the model entry is then
      as the block and the others left it. */
  predicate Succeeds(w: World, s: Store, name: string, value: string, block: Block, t: Store, o: Outcome) {
    var outcome := KeyOutcome(w, s, name, value);
    && (o.Success? <==>
          outcome.Ok? && Quiet(w, s.now, s.now + 7) && block.end == NoFault
          && Foreign(w, Some(outcome.value), s.now + 4, s.now + 7) == Some(outcome.value))
    && (o.Success? ==> t.file == Some(outcome.value) && Holds(t.file, name, value)
                       && t.modelSaved == ModelAtBlockEnd(w, s, block))
  }

  lemma HalvesSucceed(w: World, s: Store, name: string, value: string, block: Block,
                      b: Store, r: WriteResult, t: Store, o: Outcome)
    requires KeyAdded(w, s, name, value, b, r)
    requires r.Raised? ==> o.Stopped?
    requires r.Written? ==> BlockSucceeds(w, b, block, r.owned, t, o)
    ensures Succeeds(w, s, name, value, block, t, o)
  {
    if Quiet(w, s.now, s.now + 7) {
      assert Quiet(w, s.now, s.now + 4) && Quiet(w, s.now + 4, s.now + 7);
      assert w(s.now + 4).fault == NoFault;
    }
  }

  lemma SucceedsIff(w: World, s: Store, name: string, value: string, block: Block,
                    mayBeSaved: Question, guard: Option<Fault>)
    ensures var (t, o) := Transaction(w, s, name, value, block, mayBeSaved, guard);
      Succeeds(w, s, name, value, block, t, o)
  {
    var (b, r) := AddKey(w, s, name, value);
    var (t, o) := Transaction(w, s, name, value, block, mayBeSaved, guard);
    AddKeyRun(w, s, name, value);
    if r.Written? {
      BlockSucceedsIff(w, b, block, Original(w, s), r.owned, mayBeSaved, guard);
    }
    HalvesSucceed(w, s, name, value, block, b, r, t, o);
  }

  /** A saved entry stays saved while nobody deletes it. */
  lemma {:induction false} ModelStays(w: World, saved: bool, a: nat, b: nat)
    requires a <= b && forall i: nat :: w(i).model != Some(false)
    ensures saved ==> ModelAfter(w, saved, a, b)
  {
    if a < b { ModelStays(w, saved, a, b - 1); }
  }

  /** Success leaves both: the key in the file and, unless others delete it, the entry the block saved. */
  lemma SuccessLeavesBoth(w: World, s: Store, name: string, value: string, block: Block,
                          mayBeSaved: Question, guard: Option<Fault>)
    requires Transaction(w, s, name, value, block, mayBeSaved, guard).1 == Success
    requires block.saves && forall i: nat :: w(i).model != Some(false)
    ensures var t := Transaction(w, s, name, value, block, mayBeSaved, guard).0;
      Holds(t.file, name, value) && t.modelSaved
  {
    SucceedsIff(w, s, name, value, block, mayBeSaved, guard);
    assert w(s.now + 4).fault == NoFault && BlockSteps(w, s.now + 4, block) == 3;
    ModelStays(w, true, s.now + 5, s.now + 7);
  }

  /** What rollback restores was read before the write read the file again, so it is what
      the write replaced exactly when no other content was put there between the two. */
  lemma RestoresWhatWasReplacedIff(w: World, s: Store, name: string, value: string, block: Block,
                                   mayBeSaved: Question, guard: Option<Fault>)
    requires Removes(w, s, name, value, block, mayBeSaved, guard)
    ensures var t := Transaction(w, s, name, value, block, mayBeSaved, guard).0;
      var n := |s.changes|;
      |t.changes| == n + 2
      && (t.changes[n + 1].put == t.changes[n].replaced <==> w(s.now + 1).write in {None, Some(Original(w, s))})
  {
    TransactionSettles(w, s, name, value, block, mayBeSaved, guard);
    ReadSteps(w, s);
  }

  /** What each outcome says of the file, whatever the world does. */
  predicate Leaves(w: World, s: Store, name: string, value: string, t: Store, o: Outcome) {
    var outcome := KeyOutcome(w, s, name, value);
    && (TakenBack(o) ==> t.file == Original(w, s))
    && (o == Stopped(Failure) ==> t.file == Foreign(w, s.file, s.now, t.now))
    && (o.Partial? ==>
          outcome.Ok? && Holds(Some(outcome.value), name, value)
          && s.now + 4 <= t.now && t.file == Foreign(w, Some(outcome.value), s.now + 4, t.now))
    && (o.Success? ==> Holds(t.file, name, value))
    && (o != Stopped(Crash) ==> t.temps == s.temps)
  }

  lemma TransactionLeaves(w: World, s: Store, name: string, value: string, block: Block,
                          mayBeSaved: Question, guard: Option<Fault>)
    ensures var (t, o) := Transaction(w, s, name, value, block, mayBeSaved, guard); Leaves(w, s, name, value, t, o)
  {
    TransactionSettles(w, s, name, value, block, mayBeSaved, guard);
    FileAtTheEnd(w, s, name, value, block, mayBeSaved, guard);
    SucceedsIff(w, s, name, value, block, mayBeSaved, guard);
  }

  // ------------------------------------------------------------ when nothing interferes

  ghost predicate Calm(w: World) {
    forall i: nat :: w(i) == Happening(None, None, NoFault)
  }

  /** How the handler ends when nothing outside interferes. */
  function UndoInCalm(error: Fault, modelSaved: bool, mayBeSaved: Question, guard: Option<Fault>): Outcome {
    if guard == Some(Failure) then Partial
    else if guard.Some? && guard.value != NoFault then Stopped(guard.value)
    else match if mayBeSaved.Some? then mayBeSaved.value(modelSaved) else No
      case Aborted => Stopped(Interrupt)
      case No => if error == Failure then RolledBack else Reraised
      case _ => Partial
  }

  lemma {:induction false} CalmKeeps(w: World, file: Content, saved: bool, a: nat, b: nat)
    requires Calm(w) && a <= b
    ensures Foreign(w, file, a, b) == file && ModelAfter(w, saved, a, b) == saved
  {
    if a < b { CalmKeeps(w, file, saved, a, b - 1); }
  }

  lemma CalmPass(w: World, s: Store, guarded: bool)
    requires Calm(w)
    ensures Pass(w, s, guarded) == s.(now := s.now + 1) && w(s.now).fault == NoFault
  {
    CalmKeeps(w, s.file, s.modelSaved, s.now, s.now + 1);
  }

  lemma CalmWrite(w: World, s: Store, name: string, value: string, createOnly: bool)
    requires Calm(w)
    ensures var (t, r) := Write(w, s, name, value, createOnly);
      var prepared := Prepare(s.file, name, value, createOnly);
      && r == (if prepared.Ok? then Written(prepared.value) else Raised(Failure))
      && t.file == (if prepared.Ok? then Some(prepared.value) else s.file)
      && t.modelSaved == s.modelSaved
  {
    var a := s.(now := s.now + 1);
    var b := a.(now := a.now + 1);
    CalmPass(w, s, false);
    CalmPass(w, a, false);
    CalmPass(w, b, false);
    assert w(b.now + 1).fault == NoFault;
  }

  lemma CalmAddKey(w: World, s: Store, name: string, value: string)
    requires Calm(w)
    ensures var (t, r) := AddKey(w, s, name, value);
      var prepared := Prepare(s.file, name, value, true);
      && r == (if prepared.Ok? then Written(prepared.value) else Raised(Failure))
      && t.file == (if prepared.Ok? then Some(prepared.value) else s.file)
      && t.modelSaved == s.modelSaved
  {
    CalmPass(w, s, false);
    CalmWrite(w, s.(now := s.now + 1), name, value, true);
  }

  lemma CalmBlock(w: World, s: Store, block: Block, owned: Bytes)
    requires Calm(w) && s.file == Some(owned)
    ensures var (t, error) := RunBlock(w, s, block, owned);
      error == block.end && t.file == s.file && t.modelSaved == (s.modelSaved || block.saves)
  {
    var a := s.(now := s.now + 1);
    var b := a.(now := a.now + 1, modelSaved := a.modelSaved || block.saves);
    CalmPass(w, s, false);
    CalmPass(w, a.(modelSaved := a.modelSaved || block.saves), false);
    CalmPass(w, b, false);
  }

  lemma CalmUndo(w: World, h: Store, original: Content, owned: Bytes, error: Fault,
                 mayBeSaved: Question, guard: Option<Fault>)
    requires Calm(w) && h.file == Some(owned)
    ensures var (t, o) := Undo(w, h, original, owned, error, mayBeSaved, guard);
      && o == UndoInCalm(error, h.modelSaved, mayBeSaved, guard)
      && t.file == (if TakenBack(o) then original else h.file)
      && t.modelSaved == h.modelSaved
  {
    var a := h.(now := h.now + 1);
    CalmPass(w, h, guard.Some?);
    CalmPass(w, a, guard.Some?);
    CalmPass(w, a.(now := a.now + 1), guard.Some?);
  }

  /** Then the outcome, the file and the model entry are those of a program that runs alone. */
  lemma CalmTransaction(w: World, s: Store, name: string, value: string, block: Block,
                        mayBeSaved: Question, guard: Option<Fault>)
    requires Calm(w)
    ensures var (t, o) := Transaction(w, s, name, value, block, mayBeSaved, guard);
      var prepared := Prepare(s.file, name, value, true);
      var saved := s.modelSaved || block.saves;
      && o == (if prepared.Err? then Stopped(Failure)
               else if block.end == NoFault then Success
               else if block.end == Crash then Stopped(Crash)
               else UndoInCalm(block.end, saved, mayBeSaved, guard))
      && t.file == (if prepared.Err? || TakenBack(o) then s.file else Some(prepared.value))
      && t.modelSaved == (if prepared.Err? then s.modelSaved else saved)
  {
    CalmAddKey(w, s, name, value);
    var (t, r) := AddKey(w, s, name, value);
    if r.Written? {
      CalmBlock(w, t, block, r.owned);
      var (h, error) := RunBlock(w, t, block, r.owned);
      CalmUndo(w, h, Original(w, s), r.owned, error, mayBeSaved, guard);
    }
  }

  // ------------------------------------------------------------ a write that keeps too little

  /** A successful write keeps every other variable of the content it replaced
      exactly when its two reads saw the same other variables. */
  lemma WriteRunKeepsOthersIff(w: World, s: Store, name: string, value: string, createOnly: bool)
    requires Write(w, s, name, value, createOnly).1.Written?
    ensures var t := Write(w, s, name, value, createOnly).0;
      var replaced := ReadAt(w, s, 1);
      && t.changes == s.changes + [Change(s.now + 3, replaced, t.file)]
      && (EnvOf(t.file) == EnvOf(replaced)[name := Text(value)]
          <==> EnvOf(ReadAt(w, s, 2)) - {name} == EnvOf(replaced) - {name})
  {
    WriteRun(w, s, name, value, createOnly);
    WriteKeepsOthersIff(ReadAt(w, s, 1), ReadAt(w, s, 2), ReadAt(w, s, 3), name, value, createOnly);
  }

  /** A program that does not take the lock replaces the file between the two reads and then puts it back. */
  function Restoring(original: Content, meanwhile: Content): World {
    i => Happening(if i == 1 then Some(meanwhile) else if i == 2 then Some(original) else None, None, NoFault)
  }

  /** The check for a change during the write misses it: for any two files whose
      variables differ apart from the new one, the write succeeds and what it leaves
      is not the original file with the new variable. */
  lemma ChangedAndRestoredIsMissed(original: Content, meanwhile: Content, name: string, value: string)
    requires Prepare(meanwhile, name, value, true).Ok?
    requires EnvOf(meanwhile) - {name} != EnvOf(original) - {name}
    ensures var (t, r) := Write(Restoring(original, meanwhile), Store(0, original, false, 0, []), name, value, true);
      r.Written? && EnvOf(t.file) != EnvOf(original)[name := Text(value)]
  {
    var w, s := Restoring(original, meanwhile), Store(0, original, false, 0, []);
    ReadSteps(w, s);
    WriteRun(w, s, name, value, true);
    WriteRunKeepsOthersIff(w, s, name, value, true);
  }

  /** Such files exist: the variable A of the original is lost. */
  lemma RestoredVariableIsLost()
    ensures var original := Some(Dump(Doc(Env(map["A" := Text("1")]), map[])));
            var meanwhile := Some(Dump(Doc(Env(map["B" := Text("2")]), map[])));
            var (t, r) := Write(Restoring(original, meanwhile), Store(0, original, false, 0, []), "K", "v", true);
            r.Written? && "A" in EnvOf(original) && "A" !in EnvOf(t.file)
  {
    var original := Some(Dump(Doc(Env(map["A" := Text("1")]), map[])));
    var meanwhile := Some(Dump(Doc(Env(map["B" := Text("2")]), map[])));
    var w, s := Restoring(original, meanwhile), Store(0, original, false, 0, []);
    assert ValidName("K") && "K" !in EnvOf(meanwhile) && LoadDoc(meanwhile).Ok?;
    PrepareUpdates(meanwhile, "K", "v", true);
    assert "A" in EnvOf(original) - {"K"} && "A" !in EnvOf(meanwhile) - {"K"};
    ChangedAndRestoredIsMissed(original, meanwhile, "K", "v");
    ReadSteps(w, s);
    WriteRun(w, s, "K", "v", true);
  }
}
