/**
Whole runs of the scope-stack protocol: any sequence of enabled events, in any
interleaving of the tasks.  What a run does is compared with its history, read
off the events alone.
*/
module ScopeRuns {
  import opened Wrappers
  import opened ScopeStacks

  // ------------------------------------------------------------ runs

  ghost predicate Legal(known: bool, k: nat, es: seq<Event>)
    decreases |es|, 0
  {
    es == [] || (Legal(known, k, Past(es)) && Enabled(Run(known, k, Past(es)), Last(es)))
  }

  /** The state after some events, with `k` ambient scopes at the start. */
  ghost function Run(known: bool, k: nat, es: seq<Event>): State
    requires Legal(known, k, es)
    decreases |es|, 1
  {
    if es == [] then Initial(known, k) else Step(Run(known, k, Past(es)), Last(es))
  }

  function Past(es: seq<Event>): (past: seq<Event>)
    requires es != []
    ensures |past| == |es| - 1
  {
    es[..|es| - 1]
  }

  function Last(es: seq<Event>): Event
    requires es != []
  {
    es[|es| - 1]
  }

  lemma {:induction false} RunWellFormed(known: bool, k: nat, es: seq<Event>)
    requires Legal(known, k, es)
    ensures WellFormed(Run(known, k, es)) && Run(known, k, es).stackVarKnown == known
  {
    if es == [] {
      InitialPiled(known, k);
    } else {
      RunWellFormed(known, k, Past(es));
      StepWellFormed(Run(known, k, Past(es)), Last(es));
    }
  }

  /** Without a rejected pop the stacks hold exactly the open handles, in push order. */
  lemma {:induction false} RunPiled(known: bool, k: nat, es: seq<Event>)
    requires Legal(known, k, es) && Run(known, k, es).failures == 0
    ensures Piled(Run(known, k, es))
    ensures es != [] ==> Run(known, k, Past(es)).failures == 0
  {
    if es == [] {
      InitialPiled(known, k);
    } else {
      RunPiled(known, k, Past(es));
      RunWellFormed(known, k, Past(es));
      StepPiled(Run(known, k, Past(es)), Last(es));
    }
  }

  lemma PastPrefix(es: seq<Event>, m: nat)
    requires m < |es|
    ensures Past(es)[..m] == es[..m]
  {
  }

  lemma {:induction false} LegalPrefix(known: bool, k: nat, es: seq<Event>, m: nat)
    requires Legal(known, k, es) && m <= |es|
    ensures Legal(known, k, es[..m])
    ensures m < |es| ==> Enabled(Run(known, k, es[..m]), es[m])
    ensures m < |es| ==> Legal(known, k, es[..m + 1])
                         && Run(known, k, es[..m + 1]) == Step(Run(known, k, es[..m]), es[m])
  {
    if m == |es| {
      assert es[..m] == es;
    } else if m == |es| - 1 {
      assert es[..m + 1] == es;
      assert es[..m] == Past(es);
    } else {
      LegalPrefix(known, k, Past(es), m);
      PastPrefix(es, m);
      PastPrefix(es, m + 1);
    }
  }

  /** The state after the first `m` events of a run. */
  ghost function StateAt(known: bool, k: nat, es: seq<Event>, m: nat): State
    requires Legal(known, k, es) && m <= |es|
  {
    LegalPrefix(known, k, es, m);
    Run(known, k, es[..m])
  }

  function Depth(s: State, t: TaskId): nat {
    if t in s.tasks then |s.tasks[t].frames| else 0
  }

  lemma StateAtNext(known: bool, k: nat, es: seq<Event>, m: nat)
    requires Legal(known, k, es) && m < |es|
    ensures var s := StateAt(known, k, es, m);
            Enabled(s, es[m]) && StateAt(known, k, es, m + 1) == Step(s, es[m])
  {
    LegalPrefix(known, k, es, m);
  }

  lemma StateAtWellFormed(known: bool, k: nat, es: seq<Event>, m: nat, t: TaskId)
    requires Legal(known, k, es) && m <= |es| && t in StateAt(known, k, es, m).tasks
    ensures TaskWellFormed(StateAt(known, k, es, m), t)
  {
    LegalPrefix(known, k, es, m);
    RunWellFormed(known, k, es[..m]);
  }

  // ------------------------------------------------------------ bracketing

  /** While a task stays deeper than `d`, its first `d + 1` frames and its stack do not change. */
  lemma StepKeepsOuterFrames(s: State, e: Event, t: TaskId, d: nat)
    requires Depth(s, t) > d && TaskWellFormed(s, t) && Enabled(s, e) && Depth(Step(s, e), t) > d
    ensures Step(s, e).tasks[t].frames[..d + 1] == s.tasks[t].frames[..d + 1]
    ensures Step(s, e).tasks[t].stack == s.tasks[t].stack
  {
    var frames := s.tasks[t].frames;
    if e == Leave(t) {
      assert frames[|frames| - 1].stackToken == None;
      assert frames[..|frames| - 1][..d + 1] == frames[..d + 1];
    }
  }

  lemma {:induction false} OuterFramesKept(known: bool, k: nat, es: seq<Event>, t: TaskId, d: nat, i: nat, m: nat)
    requires Legal(known, k, es) && i < m <= |es|
    requires forall j :: i < j <= m ==> Depth(StateAt(known, k, es, j), t) > d
    ensures var entered, after := StateAt(known, k, es, i + 1), StateAt(known, k, es, m);
            && Depth(entered, t) > d && Depth(after, t) > d
            && after.tasks[t].frames[..d + 1] == entered.tasks[t].frames[..d + 1]
            && after.tasks[t].stack == entered.tasks[t].stack
    decreases m
  {
    if m > i + 1 {
      OuterFramesKept(known, k, es, t, d, i, m - 1);
      StateAtNext(known, k, es, m - 1);
      StateAtWellFormed(known, k, es, m - 1, t);
      StepKeepsOuterFrames(StateAt(known, k, es, m - 1), es[m - 1], t, d);
    }
  }

  /** A push and the exit that matches it, on the states around them. */
  lemma BracketRestores(before: State, entered: State, leaving: State, after: State, t: TaskId, push: Event)
    requires KnownTask(before, t) && (push == Call(t) || push == Open(t)) && entered == Step(before, push)
    requires KnownTask(leaving, t) && leaving.tasks[t].frames == entered.tasks[t].frames
    requires leaving.tasks[t].stack == entered.tasks[t].stack && after == LeaveStep(leaving, t)
    ensures after.tasks[t] == before.tasks[t]
  {
    var frames := before.tasks[t].frames;
    assert leaving.tasks[t].frames[..|frames|] == frames;
  }

  /** Leaving a call gives the task back the very record it had before entering
      it: the same stack binding, the same current scope, the same open calls. */
  lemma LeaveRestores(known: bool, k: nat, es: seq<Event>, t: TaskId, i: nat, j: nat)
    requires Legal(known, k, es) && i < j < |es|
    requires es[i] == Call(t) || es[i] == Open(t)
    requires es[j] == Leave(t)
    requires forall m :: i < m <= j ==> Depth(StateAt(known, k, es, m), t) > Depth(StateAt(known, k, es, i), t)
    requires Depth(StateAt(known, k, es, j + 1), t) == Depth(StateAt(known, k, es, i), t)
    ensures t in StateAt(known, k, es, i).tasks && t in StateAt(known, k, es, j + 1).tasks
    ensures StateAt(known, k, es, j + 1).tasks[t] == StateAt(known, k, es, i).tasks[t]
  {
    var before, entered, leaving := StateAt(known, k, es, i), StateAt(known, k, es, i + 1), StateAt(known, k, es, j);
    var d := Depth(before, t);
    StateAtNext(known, k, es, i);
    StateAtNext(known, k, es, j);
    OuterFramesKept(known, k, es, t, d, i, j);
    assert leaving.tasks[t].frames[..d + 1] == leaving.tasks[t].frames;
    assert entered.tasks[t].frames[..d + 1] == entered.tasks[t].frames;
    BracketRestores(before, entered, leaving, StateAt(known, k, es, j + 1), t, es[i]);
  }

  // ------------------------------------------------------------ histories

  predicate PushBy(e: Event, t: TaskId) {
    e == Call(t) || e == Open(t)
  }

  /** Pushes made so far; the handle of a push is `k` plus this number. */
  function Pushes(es: seq<Event>): nat {
    if es == [] then 0 else Pushes(Past(es)) + (if PushBy(Last(es), Last(es).task) then 1 else 0)
  }

  /** The calls of `t` that are open after `es`, read off the history alone. */
  function OpenCalls(k: nat, es: seq<Event>, t: TaskId): seq<Handle> {
    if es == [] then [] else
      var open := OpenCalls(k, Past(es), t);
      if PushBy(Last(es), t) then open + [k + Pushes(Past(es))]
      else if Last(es) == Leave(t) && open != [] then open[..|open| - 1]
      else open
  }

  /** The call enclosing `t` after `es`: its own newest open call, or else the
      call that enclosed the task that spawned it when it did. */
  function Enclosing(k: nat, es: seq<Event>, t: TaskId): Option<Handle>
    decreases |es|, 1
  {
    var open := OpenCalls(k, es, t);
    if open != [] then Some(open[|open| - 1]) else Inherited(k, es, t)
  }

  function Inherited(k: nat, es: seq<Event>, t: TaskId): Option<Handle>
    decreases |es|, 0
  {
    if es == [] then None
    else if Last(es).Spawn? && Last(es).child == t then Enclosing(k, Past(es), Last(es).task)
    else Inherited(k, Past(es), t)
  }

  /** A call is isolated when its task has no open call of its own. */
  predicate Isolating(known: bool, k: nat, es: seq<Event>)
    requires es != []
  {
    known && Last(es).Call? && OpenCalls(k, Past(es), Last(es).task) == []
  }

  function Isolations(known: bool, k: nat, es: seq<Event>): nat {
    if es == [] then 0 else Isolations(known, k, Past(es)) + (if Isolating(known, k, es) then 1 else 0)
  }

  /** The stack a task inherited when it was spawned; it is bound to it whenever it has no open call. */
  function Home(known: bool, k: nat, es: seq<Event>, t: TaskId): StackId
    decreases |es|, 0
  {
    if es == [] then 0
    else if Last(es).Spawn? && Last(es).child == t then Binding(known, k, Past(es), Last(es).task)
    else Home(known, k, Past(es), t)
  }

  /** The stack of the outermost open call: a new one if that call was isolated, else the inherited one. */
  function Outermost(known: bool, k: nat, es: seq<Event>, t: TaskId): StackId
    decreases |es|, 0
  {
    if es == [] then 0
    else if PushBy(Last(es), t) && OpenCalls(k, Past(es), t) == [] then
      if Isolating(known, k, es) then 1 + Isolations(known, k, Past(es)) else Home(known, k, Past(es), t)
    else Outermost(known, k, Past(es), t)
  }

  /** The stack a task is bound to after `es`, read off the history alone. */
  function Binding(known: bool, k: nat, es: seq<Event>, t: TaskId): StackId
    decreases |es|, 1
  {
    if OpenCalls(k, es, t) == [] then Home(known, k, es, t) else Outermost(known, k, es, t)
  }

  function ScopeHandle(scope: Option<Scope>): Option<Handle> {
    if scope.None? then None else Some(scope.value.handle)
  }

  /** The scope and the stack a task goes back to when it has left all its calls. */
  function OuterScope(task: Task): Option<Scope> {
    if task.frames == [] then task.scope else task.frames[0].prev
  }

  function OuterStack(task: Task): StackId {
    if task.frames != [] && task.frames[0].stackToken.Some? then task.frames[0].stackToken.value else task.stack
  }

  ghost predicate TaskMatches(known: bool, k: nat, es: seq<Event>, t: TaskId, task: Task) {
    && Handles(task.frames) == OpenCalls(k, es, t)
    && ScopeHandle(OuterScope(task)) == Inherited(k, es, t)
    && task.stack == Binding(known, k, es, t)
    && OuterStack(task) == Home(known, k, es, t)
  }

  /** The context variables say what the history says. */
  ghost predicate MatchesHistory(known: bool, s: State, k: nat, es: seq<Event>) {
    && |s.parents| == k + Pushes(es)
    && |s.stacks| == 1 + Isolations(known, k, es)
    && (forall t :: t in s.tasks ==> TaskMatches(known, k, es, t, s.tasks[t]))
    && (forall t :: t !in s.tasks ==> OpenCalls(k, es, t) == [])
  }

  lemma ScopeIsEnclosing(known: bool, s: State, k: nat, es: seq<Event>, t: TaskId)
    requires t in s.tasks && TaskWellFormed(s, t) && TaskMatches(known, k, es, t, s.tasks[t])
    ensures ScopeHandle(s.tasks[t].scope) == Enclosing(k, es, t)
  {
    assert |OpenCalls(k, es, t)| == |s.tasks[t].frames|;
  }

  /** A task isolates its next call exactly when it has no open call. */
  lemma IsolatesIff(s: State, t: TaskId)
    requires KnownTask(s, t) && TaskWellFormed(s, t)
    ensures Isolates(s, t) <==> s.stackVarKnown && s.tasks[t].frames == []
  {
  }

  lemma CallerMatches(known: bool, s: State, k: nat, es: seq<Event>, t: TaskId)
    requires es != [] && Last(es) == Call(t) && KnownTask(s, t) && TaskWellFormed(s, t) && s.stackVarKnown == known
    requires |s.parents| == k + Pushes(Past(es)) && |s.stacks| == 1 + Isolations(known, k, Past(es))
    requires TaskMatches(known, k, Past(es), t, s.tasks[t])
    ensures TaskMatches(known, k, es, t, CallStep(s, t).tasks[t])
    ensures |CallStep(s, t).stacks| == 1 + Isolations(known, k, es)
  {
    var frames := s.tasks[t].frames;
    IsolatesIff(s, t);
    assert |OpenCalls(k, Past(es), t)| == |frames|;
    HandlesAppend(frames, CallStep(s, t).tasks[t].frames[|frames|]);
  }

  lemma OpenerMatches(known: bool, s: State, k: nat, es: seq<Event>, t: TaskId)
    requires es != [] && Last(es) == Open(t) && KnownTask(s, t)
    requires |s.parents| == k + Pushes(Past(es))
    requires TaskMatches(known, k, Past(es), t, s.tasks[t])
    ensures TaskMatches(known, k, es, t, OpenStep(s, t).tasks[t])
  {
    var frames := s.tasks[t].frames;
    assert |OpenCalls(k, Past(es), t)| == |frames|;
    HandlesAppend(frames, OpenStep(s, t).tasks[t].frames[|frames|]);
  }

  lemma LeaverMatches(known: bool, s: State, k: nat, es: seq<Event>, t: TaskId)
    requires es != [] && Last(es) == Leave(t) && Enabled(s, Last(es)) && TaskWellFormed(s, t)
    requires TaskMatches(known, k, Past(es), t, s.tasks[t])
    ensures TaskMatches(known, k, es, t, LeaveStep(s, t).tasks[t])
  {
    var frames := s.tasks[t].frames;
    assert |OpenCalls(k, Past(es), t)| == |frames|;
    HandlesFront(frames);
    assert Handles(frames)[..|frames| - 1] == Handles(frames[..|frames| - 1]);
  }

  lemma ChildMatches(known: bool, s: State, k: nat, es: seq<Event>, t: TaskId, child: TaskId)
    requires es != [] && Last(es) == Spawn(t, child) && Enabled(s, Last(es)) && TaskWellFormed(s, t)
    requires TaskMatches(known, k, Past(es), t, s.tasks[t]) && OpenCalls(k, Past(es), child) == []
    ensures TaskMatches(known, k, es, child, SpawnStep(s, t, child).tasks[child])
  {
    ScopeIsEnclosing(known, s, k, Past(es), t);
    HandlesAppend([], Frame(0, None, None));
  }

  lemma BystanderMatches(known: bool, k: nat, es: seq<Event>, t: TaskId, task: Task)
    requires es != [] && TaskMatches(known, k, Past(es), t, task) && !PushBy(Last(es), t) && Last(es) != Leave(t)
    requires Last(es).Spawn? ==> Last(es).child != t
    ensures TaskMatches(known, k, es, t, task)
  {
  }

  lemma ActorMatches(known: bool, s: State, k: nat, es: seq<Event>)
    requires es != [] && Enabled(s, Last(es)) && TaskWellFormed(s, Last(es).task) && s.stackVarKnown == known
    requires MatchesHistory(known, s, k, Past(es))
    ensures TaskMatches(known, k, es, Last(es).task, Step(s, Last(es)).tasks[Last(es).task])
    ensures |Step(s, Last(es)).stacks| == 1 + Isolations(known, k, es)
  {
    var t := Last(es).task;
    assert TaskMatches(known, k, Past(es), t, s.tasks[t]);
    match Last(es)
    case Spawn(_, _) => BystanderMatches(known, k, es, t, s.tasks[t]);
    case Call(_) => CallerMatches(known, s, k, es, t);
    case Open(_) => OpenerMatches(known, s, k, es, t);
    case Leave(_) => LeaverMatches(known, s, k, es, t);
  }

  lemma OtherMatches(known: bool, s: State, k: nat, es: seq<Event>, t: TaskId)
    requires es != [] && Enabled(s, Last(es)) && TaskWellFormed(s, Last(es).task)
    requires MatchesHistory(known, s, k, Past(es)) && t in Step(s, Last(es)).tasks && t != Last(es).task
    ensures TaskMatches(known, k, es, t, Step(s, Last(es)).tasks[t])
  {
    var e := Last(es);
    if e.Spawn? && t == e.child {
      assert TaskMatches(known, k, Past(es), e.task, s.tasks[e.task]);
      ChildMatches(known, s, k, es, e.task, t);
    } else {
      assert TaskMatches(known, k, Past(es), t, s.tasks[t]);
      BystanderMatches(known, k, es, t, s.tasks[t]);
    }
  }

  lemma StepMatches(known: bool, s: State, k: nat, es: seq<Event>)
    requires es != [] && Enabled(s, Last(es)) && TaskWellFormed(s, Last(es).task) && s.stackVarKnown == known
    requires MatchesHistory(known, s, k, Past(es))
    ensures MatchesHistory(known, Step(s, Last(es)), k, es)
  {
    ActorMatches(known, s, k, es);
    forall t | t in Step(s, Last(es)).tasks && t != Last(es).task
      ensures TaskMatches(known, k, es, t, Step(s, Last(es)).tasks[t])
    {
      OtherMatches(known, s, k, es, t);
    }
  }

  /** Every run: open calls, enclosing call and stack binding of each task are those of the history. */
  lemma {:induction false} RunMatches(known: bool, k: nat, es: seq<Event>)
    requires Legal(known, k, es)
    ensures MatchesHistory(known, Run(known, k, es), k, es)
  {
    if es == [] {
      HandlesAppend([], Frame(0, None, None));
    } else {
      RunMatches(known, k, Past(es));
      RunWellFormed(known, k, Past(es));
      assert TaskWellFormed(Run(known, k, Past(es)), Last(es).task);
      StepMatches(known, Run(known, k, Past(es)), k, es);
    }
  }

  // ------------------------------------------------------------ rejected pops

  /** An exit crosses another task's call: while its own call was open, the other
      task pushed on the same stack, and has not left that call yet. */
  ghost predicate Crosses(known: bool, k: nat, es: seq<Event>)
    requires es != []
  {
    && Last(es).Leave?
    && exists u :: u != Last(es).task && CallsCross(known, k, Past(es), Last(es).task, u)
  }

  /** `u` has an open call newer than the newest one of `t`, on the same stack. */
  predicate CallsCross(known: bool, k: nat, es: seq<Event>, t: TaskId, u: TaskId) {
    var own, others := OpenCalls(k, es, t), OpenCalls(k, es, u);
    && own != [] && others != []
    && Binding(known, k, es, u) == Binding(known, k, es, t)
    && others[|others| - 1] > own[|own| - 1]
  }

  lemma NewestMatches(known: bool, s: State, k: nat, es: seq<Event>, t: TaskId)
    requires Busy(s, t) && TaskMatches(known, k, es, t, s.tasks[t])
    ensures var open := OpenCalls(k, es, t); open != [] && open[|open| - 1] == Newest(s, t)
  {
    assert |OpenCalls(k, es, t)| == |s.tasks[t].frames|;
  }

  lemma CrossesIffOvertaken(known: bool, s: State, k: nat, es: seq<Event>)
    requires es != [] && Last(es).Leave? && Enabled(s, Last(es)) && MatchesHistory(known, s, k, Past(es))
    ensures Crosses(known, k, es) <==> Overtaken(s, Last(es).task)
  {
    var t := Last(es).task;
    assert Busy(s, t) && TaskMatches(known, k, Past(es), t, s.tasks[t]);
    NewestMatches(known, s, k, Past(es), t);
    forall u | u in s.tasks
      ensures CallsCross(known, k, Past(es), t, u)
              <==> Busy(s, u) && s.tasks[u].stack == s.tasks[t].stack && Newest(s, u) > Newest(s, t)
    {
      assert TaskMatches(known, k, Past(es), u, s.tasks[u]);
      assert |OpenCalls(k, Past(es), u)| == |s.tasks[u].frames|;
    }
  }

  ghost predicate NeverCrosses(known: bool, k: nat, es: seq<Event>)
    decreases |es|
  {
    es == [] || (NeverCrosses(known, k, Past(es)) && !Crosses(known, k, es))
  }

  /** Every run of enabled events, whatever scopes are opened where: no pop is
      rejected if and only if no exit crosses another task's call. */
  lemma {:induction false} NoRejectionIff(known: bool, k: nat, es: seq<Event>)
    requires Legal(known, k, es)
    ensures Run(known, k, es).failures == 0 <==> NeverCrosses(known, k, es)
  {
    if es != [] {
      NoRejectionIff(known, k, Past(es));
      var s := Run(known, k, Past(es));
      RunWellFormed(known, k, Past(es));
      if s.failures == 0 && Last(es).Leave? {
        RunPiled(known, k, Past(es));
        RunMatches(known, k, Past(es));
        CrossesIffOvertaken(known, s, k, es);
        AcceptedIff(s, Last(es).task);
      }
    }
  }

  /** Pushes that isolate aside, every push finds its stack free of other tasks' calls. */
  ghost predicate Disciplined(known: bool, k: nat, es: seq<Event>)
    requires Legal(known, k, es)
    decreases |es|
  {
    es == [] || (Disciplined(known, k, Past(es)) && Guarded(Run(known, k, Past(es)), Last(es)))
  }

  lemma UnsharedAccepted(s: State, t: TaskId)
    requires WellFormed(s) && Piled(s) && Unshared(s) && KnownTask(s, t) && Busy(s, t)
    ensures PopAccepted(s, t)
  {
    AcceptedIff(s, t);
  }

  lemma {:induction false} RunUnshared(known: bool, k: nat, es: seq<Event>)
    requires Legal(known, k, es) && Disciplined(known, k, es)
    ensures Unshared(Run(known, k, es)) && Run(known, k, es).failures == 0
  {
    if es != [] {
      var s := Run(known, k, Past(es));
      RunUnshared(known, k, Past(es));
      RunWellFormed(known, k, Past(es));
      RunPiled(known, k, Past(es));
      StepUnshared(s, Last(es));
      if Last(es).Leave? { UnsharedAccepted(s, Last(es).task); }
    }
  }

  /** In a disciplined run no pop is rejected, every task's newest open call is on
      top of its stack, and each stack holds exactly one task's open handles, in
      call order, above what was there before. */
  lemma PopsAlwaysAccepted(known: bool, k: nat, es: seq<Event>)
    requires Legal(known, k, es) && Disciplined(known, k, es)
    ensures var s := Run(known, k, es);
      && s.failures == 0 && Sound(s) && Piled(s) && Unshared(s)
      && forall t :: Busy(s, t) ==> KnownTask(s, t) && HoldsOwn(s, t)
  {
    var s := Run(known, k, es);
    RunUnshared(known, k, es);
    RunWellFormed(known, k, es);
    RunPiled(known, k, es);
    SoundIffUnshared(s);
    forall t | Busy(s, t) ensures KnownTask(s, t) && HoldsOwn(s, t) {
      assert TaskWellFormed(s, t);
      UnsharedHoldsOwn(s, t);
    }
  }

  /** At most one relay scope is opened, before anything else happens. */
  predicate OneScope(es: seq<Event>) {
    forall i :: 0 < i < |es| ==> !es[i].Open?
  }

  /** Every interleaving of agent calls under one relay scope, or under none, is disciplined. */
  lemma {:induction false} CallsAreDisciplined(k: nat, es: seq<Event>)
    requires Legal(true, k, es) && OneScope(es)
    ensures Disciplined(true, k, es)
  {
    if es != [] {
      CallsAreDisciplined(k, Past(es));
      RunWellFormed(true, k, Past(es));
      if |es| == 1 {
        assert Run(true, k, Past(es)) == Initial(true, k);
      }
    }
  }

  lemma RunSnoc(known: bool, k: nat, es: seq<Event>, e: Event)
    requires Legal(known, k, es) && Enabled(Run(known, k, es), e)
    ensures Legal(known, k, es + [e]) && Run(known, k, es + [e]) == Step(Run(known, k, es), e)
  {
    assert Past(es + [e]) == es;
  }

  /** A child task opens a relay scope of its own on the stack of its parent's open scope. */
  function NestedScopes(): seq<Event> {
    [Open(0)] + [Spawn(0, 1)] + [Open(1)]
  }

  function Outer(): Task { Task(0, Some(Scope(0, 0)), [Frame(0, None, None)]) }

  function Inner(): Task { Task(0, Some(Scope(1, 1)), [Frame(1, Some(Scope(0, 0)), None)]) }

  function Nested(): State {
    State(true, 0, map[0 := Outer(), 1 := Inner()], [[0, 1]], [None, Some(0)], 0)
  }

  lemma OpenOnOnlyStack(s: State, t: TaskId)
    requires KnownTask(s, t) && |s.stacks| == 1
    ensures OpenStep(s, t).stacks == [s.stacks[0] + [|s.parents|]]
    ensures OpenStep(s, t).parents == s.parents + [Top(s.stacks[0])]
  {
  }

  lemma OuterOpened()
    ensures OpenStep(Initial(true, 0), 0) == State(true, 0, map[0 := Outer()], [[0]], [None], 0)
  {
    var s := Initial(true, 0);
    assert AmbientHandles(0) == [] && s.parents == [] && s.stacks[0] == [];
    OpenOnOnlyStack(s, 0);
    assert s.stacks[0] + [0] == [0] && s.parents + [None] == [None];
    assert [] + [Frame(0, None, None)] == Outer().frames;
    assert OpenStep(s, 0).tasks == map[0 := Outer()];
  }

  lemma InnerOpened(s: State)
    requires s == State(true, 0, map[0 := Outer(), 1 := Task(0, Some(Scope(0, 0)), [])], [[0]], [None], 0)
    ensures OpenStep(s, 1) == Nested()
  {
    OpenOnOnlyStack(s, 1);
    assert [0] + [1] == [0, 1] && [None] + [Some(0)] == [None, Some(0)];
    assert [] + [Frame(1, Some(Scope(0, 0)), None)] == Inner().frames;
    assert OpenStep(s, 1).tasks == map[0 := Outer(), 1 := Inner()];
  }

  lemma ChildSpawned()
    ensures var es := [Open(0)] + [Spawn(0, 1)];
      && Legal(true, 0, es)
      && Run(true, 0, es) == State(true, 0, map[0 := Outer(), 1 := Task(0, Some(Scope(0, 0)), [])], [[0]], [None], 0)
  {
    RunSnoc(true, 0, [], Open(0));
    assert [] + [Open(0)] == [Open(0)];
    OuterOpened();
    RunSnoc(true, 0, [Open(0)], Spawn(0, 1));
  }

  lemma NestedReached()
    ensures Legal(true, 0, NestedScopes()) && Run(true, 0, NestedScopes()) == Nested()
  {
    ChildSpawned();
    var es := [Open(0)] + [Spawn(0, 1)];
    InnerOpened(Run(true, 0, es));
    RunSnoc(true, 0, es, Open(1));
  }

  /** From there the parent's exit is rejected if it comes first. */
  lemma ParentFirstIsRejected()
    ensures var es := NestedScopes() + [Leave(0)]; Legal(true, 0, es) && Run(true, 0, es).failures == 1
  {
    NestedReached();
    RunSnoc(true, 0, NestedScopes(), Leave(0));
  }

  /** If the child leaves first no pop is rejected, although both scopes were on one stack. */
  lemma ChildFirstIsAccepted()
    ensures var es := NestedScopes() + [Leave(1)] + [Leave(0)]; Legal(true, 0, es) && Run(true, 0, es).failures == 0
  {
    NestedReached();
    RunSnoc(true, 0, NestedScopes(), Leave(1));
    var s := Run(true, 0, NestedScopes() + [Leave(1)]);
    assert s.stacks[0] == [0] && s.tasks[0] == Nested().tasks[0];
    RunSnoc(true, 0, NestedScopes() + [Leave(1)], Leave(0));
  }

  // ------------------------------------------------------------ parents

  lemma StepParents(s: State, e: Event)
    requires Enabled(s, e)
    ensures s.parents <= Step(s, e).parents
  {
  }

  lemma {:induction false} ParentsKept(known: bool, k: nat, es: seq<Event>, m: nat)
    requires Legal(known, k, es) && m <= |es|
    ensures StateAt(known, k, es, m).parents <= Run(known, k, es).parents
    decreases |es| - m
  {
    LegalPrefix(known, k, es, m);
    if m < |es| {
      StepParents(StateAt(known, k, es, m), es[m]);
      ParentsKept(known, k, es, m + 1);
    } else {
      assert es[..m] == es;
    }
  }

  /** The parent a push gives its scope. */
  function PushParent(s: State, e: Event): Option<Handle>
    requires KnownTask(s, e.task)
  {
    if e.Call? then CallParent(s, e.task) else Top(s.stacks[s.tasks[e.task].stack])
  }

  lemma PushRecordsParent(s: State, e: Event)
    requires Enabled(s, e) && PushBy(e, e.task)
    ensures Step(s, e).parents == s.parents + [PushParent(s, e)]
  {
  }

  /** It stays recorded under the push's own handle. */
  lemma ParentRecorded(known: bool, k: nat, es: seq<Event>, i: nat)
    requires Legal(known, k, es) && i < |es| && PushBy(es[i], es[i].task)
    ensures var h := k + Pushes(es[..i]); var s := StateAt(known, k, es, i);
            && KnownTask(s, es[i].task) && h < |Run(known, k, es).parents|
            && Run(known, k, es).parents[h] == PushParent(s, es[i])
  {
    StateAtNext(known, k, es, i);
    var s := StateAt(known, k, es, i);
    PushRecordsParent(s, es[i]);
    assert |s.parents| == k + Pushes(es[..i]) by {
      LegalPrefix(known, k, es, i);
      RunMatches(known, k, es[..i]);
    }
    ParentsKept(known, k, es, i + 1);
  }

  lemma ParentIsEarlier(known: bool, k: nat, es: seq<Event>, h: Handle)
    requires Legal(known, k, es)
    ensures var parents := Run(known, k, es).parents;
      h < |parents| && parents[h].Some? ==> parents[h].value < h
  {
    RunWellFormed(known, k, es);
  }

  /** Every call's scope has as parent the call that encloses it through the
      spawn tree (the top of its stack if nothing does), pushed strictly earlier. */
  lemma ParentIsEnclosing(known: bool, k: nat, es: seq<Event>, i: nat, t: TaskId)
    requires Legal(known, k, es) && i < |es| && es[i] == Call(t)
    ensures var h := k + Pushes(es[..i]); var parents := Run(known, k, es).parents;
            var enclosing := Enclosing(k, es[..i], t); var before := StateAt(known, k, es, i);
            && h < |parents| && KnownTask(before, t)
            && (enclosing.Some? ==> parents[h] == enclosing)
            && (enclosing.None? ==> parents[h] == Top(before.stacks[before.tasks[t].stack]))
            && (parents[h].Some? ==> parents[h].value < h)
  {
    var s := StateAt(known, k, es, i);
    ParentRecorded(known, k, es, i);
    ParentIsEarlier(known, k, es, k + Pushes(es[..i]));
    LegalPrefix(known, k, es, i);
    StateAtWellFormed(known, k, es, i, t);
    RunMatches(known, k, es[..i]);
    assert TaskMatches(known, k, es[..i], t, s.tasks[t]);
    ScopeIsEnclosing(known, s, k, es[..i], t);
  }

  /** `h` is the newest call that any task has open on the stack. */
  ghost predicate NewestOn(s: State, id: StackId, h: Handle) {
    OpenOn(s, id, h) && forall g: Handle :: OpenOn(s, id, g) ==> g <= h
  }

  lemma TopIsNewest(s: State, id: StackId)
    requires WellFormed(s) && Piled(s) && id < |s.stacks|
    ensures forall h: Handle :: NewestOn(s, id, h) ==> Top(s.stacks[id]) == Some(h)
    ensures (forall h: Handle :: !OpenOn(s, id, h)) ==> Top(s.stacks[id]) == Top(Base(s, id))
  {
    var stack := s.stacks[id];
    assert PiledOn(s, id);
    if stack != [] {
      var top := stack[|stack| - 1];
      assert top in stack;
      assert forall h :: h in stack ==> h <= top;
      OpenAboveBase(s, id);
    }
    if forall h: Handle :: !OpenOn(s, id, h) {
      SameIncreasing(stack, Base(s, id));
    }
  }

  /** Open calls are newer than everything that was there before the run. */
  lemma OpenAboveBase(s: State, id: StackId)
    requires AllWellFormed(s)
    ensures forall g: Handle, h: Handle :: g in Base(s, id) && OpenOn(s, id, h) ==> g < h
  {
    forall g: Handle, h: Handle | g in Base(s, id) && OpenOn(s, id, h) ensures g < h {
      var u :| Opens(s, u, h) && s.tasks[u].stack == id;
      assert TaskWellFormed(s, u);
    }
  }

  lemma StateAtPiled(known: bool, k: nat, es: seq<Event>, i: nat)
    requires Legal(known, k, es) && i <= |es| && StateAt(known, k, es, i).failures == 0
    ensures WellFormed(StateAt(known, k, es, i)) && Piled(StateAt(known, k, es, i))
  {
    LegalPrefix(known, k, es, i);
    RunWellFormed(known, k, es[..i]);
    RunPiled(known, k, es[..i]);
  }

  /** A relay scope has as parent the newest call open on its stack, whichever task
      opened it, as long as no pop was rejected before; with none open there, what
      was on top before the run. It too was pushed strictly earlier. */
  lemma ScopeParentIsNewest(known: bool, k: nat, es: seq<Event>, i: nat, t: TaskId)
    requires Legal(known, k, es) && i < |es| && es[i] == Open(t)
    requires StateAt(known, k, es, i).failures == 0
    ensures var h := k + Pushes(es[..i]); var parents := Run(known, k, es).parents; var before := StateAt(known, k, es, i);
            && h < |parents| && KnownTask(before, t)
            && (forall g: Handle :: NewestOn(before, before.tasks[t].stack, g) ==> parents[h] == Some(g))
            && ((forall g: Handle :: !OpenOn(before, before.tasks[t].stack, g)) ==>
                  parents[h] == Top(Base(before, before.tasks[t].stack)))
            && (parents[h].Some? ==> parents[h].value < h)
  {
    var s := StateAt(known, k, es, i);
    ParentRecorded(known, k, es, i);
    ParentIsEarlier(known, k, es, k + Pushes(es[..i]));
    StateAtPiled(known, k, es, i);
    assert TaskWellFormed(s, t);
    TopIsNewest(s, s.tasks[t].stack);
  }

  /** The parent chain of `h` passes through `root`. */
  ghost predicate Reaches(parents: seq<Option<Handle>>, h: Handle, root: Handle) {
    h == root ||
    (h < |parents| && parents[h].Some? && parents[h].value < h && Reaches(parents, parents[h].value, root))
  }

  lemma {:induction false} ReachesKept(parents: seq<Option<Handle>>, parent: Option<Handle>, h: Handle, root: Handle)
    requires Reaches(parents, h, root)
    ensures Reaches(parents + [parent], h, root)
  {
    if h != root { ReachesKept(parents, parent, parents[h].value, root); }
  }

  /** One relay scope, opened first by task 0, which is idle once it has left it. */
  predicate SingleScope(k: nat, es: seq<Event>) {
    && es != [] && es[0] == Open(0)
    && (forall i :: 1 <= i < |es| ==> !es[i].Open?)
    && (forall i :: 1 <= i < |es| && es[i].task == 0 ==> OpenCalls(k, es[..i], 0) != [])
  }

  ghost predicate Rooted(s: State, k: nat) {
    && (forall h :: k <= h < |s.parents| ==> Reaches(s.parents, h, k))
    && (forall t :: t in s.tasks ==> TaskRooted(t, s.tasks[t], k))
  }

  predicate TaskRooted(t: TaskId, task: Task, k: nat) {
    && (forall i :: 0 <= i < |task.frames| ==> task.frames[i].handle >= k)
    && (t != 0 ==> var outer := if task.frames == [] then task.scope else task.frames[0].prev;
                   outer.Some? && outer.value.handle >= k)
  }

  lemma RootedParents(parents: seq<Option<Handle>>, k: nat, parent: Handle)
    requires forall h :: k <= h < |parents| ==> Reaches(parents, h, k)
    requires k <= parent < |parents|
    ensures var parents' := parents + [Some(parent)]; forall h :: k <= h < |parents'| ==> Reaches(parents', h, k)
  {
    forall h | k <= h <= |parents| ensures Reaches(parents + [Some(parent)], h, k) {
      ReachesKept(parents, Some(parent), if h < |parents| then h else parent, k);
    }
  }

  lemma RootedCall(s: State, k: nat, t: TaskId)
    requires Rooted(s, k) && KnownTask(s, t) && TaskWellFormed(s, t) && k < |s.parents|
    requires t == 0 ==> s.tasks[0].frames != []
    ensures Rooted(CallStep(s, t), k)
  {
    var s' := CallStep(s, t);
    assert TaskRooted(t, s.tasks[t], k);
    RootedParents(s.parents, k, s.tasks[t].scope.value.handle);
    forall u | u in s'.tasks ensures TaskRooted(u, s'.tasks[u], k) {
      assert TaskRooted(u, s.tasks[u], k);
    }
  }

  lemma RootedSpawn(s: State, k: nat, t: TaskId, child: TaskId)
    requires Rooted(s, k) && Enabled(s, Spawn(t, child)) && TaskWellFormed(s, t)
    requires t == 0 ==> s.tasks[0].frames != []
    ensures Rooted(SpawnStep(s, t, child), k)
  {
    var s' := SpawnStep(s, t, child);
    assert TaskRooted(t, s.tasks[t], k);
    forall u | u in s'.tasks ensures TaskRooted(u, s'.tasks[u], k) {
      if u != child { assert TaskRooted(u, s.tasks[u], k); }
    }
  }

  lemma RootedLeave(s: State, k: nat, t: TaskId)
    requires Rooted(s, k) && Enabled(s, Leave(t)) && TaskWellFormed(s, t)
    ensures Rooted(LeaveStep(s, t), k)
  {
    var s' := LeaveStep(s, t);
    forall u | u in s'.tasks ensures TaskRooted(u, s'.tasks[u], k) {
      assert TaskRooted(u, s.tasks[u], k);
    }
  }

  lemma RootedStep(s: State, k: nat, e: Event)
    requires AllWellFormed(s) && Rooted(s, k) && Enabled(s, e) && !e.Open?
    requires k < |s.parents|
    requires e.task == 0 ==> s.tasks[0].frames != []
    ensures Rooted(Step(s, e), k)
  {
    assert TaskWellFormed(s, e.task);
    match e
    case Spawn(t, child) => RootedSpawn(s, k, t, child);
    case Call(t) => RootedCall(s, k, t);
    case Leave(t) => RootedLeave(s, k, t);
  }

  lemma RootedAtFirst(known: bool, k: nat, es: seq<Event>)
    requires Legal(known, k, es) && |es| == 1 && es[0] == Open(0)
    ensures |Run(known, k, es).parents| == k + 1 && Rooted(Run(known, k, es), k)
  {
    assert Run(known, k, es[..0]) == Initial(known, k);
  }

  lemma RunTaskZeroBusy(known: bool, k: nat, es: seq<Event>)
    requires Legal(known, k, es) && OpenCalls(k, es, 0) != [] && 0 in Run(known, k, es).tasks
    ensures Run(known, k, es).tasks[0].frames != []
  {
    RunMatches(known, k, es);
    assert TaskMatches(known, k, es, 0, Run(known, k, es).tasks[0]);
  }

  lemma RunAllWellFormed(known: bool, k: nat, es: seq<Event>)
    requires Legal(known, k, es)
    ensures AllWellFormed(Run(known, k, es))
  {
    RunWellFormed(known, k, es);
  }

  /** In a run under one relay scope every call pushed during it, also by tasks
      that outlive the scope, descends from that scope's handle `k`. */
  lemma {:induction false} CallsReachTheRoot(known: bool, k: nat, es: seq<Event>)
    requires Legal(known, k, es) && SingleScope(k, es)
    ensures |Run(known, k, es).parents| > k
    ensures Rooted(Run(known, k, es), k)
    decreases |es|
  {
    var n := |es| - 1;
    if n == 0 {
      RootedAtFirst(known, k, es);
    } else {
      SingleScopePrefix(k, es, n);
      CallsReachTheRoot(known, k, es[..n]);
      RunAllWellFormed(known, k, es[..n]);
      var s := Run(known, k, es[..n]);
      StepParents(s, es[n]);
      if es[n].task == 0 { RunTaskZeroBusy(known, k, es[..n]); }
      RootedStep(s, k, es[n]);
    }
  }

  // ------------------------------------------------------------ ownership over time

  /** The task that created each stack; task 0 starts on the ambient one. */
  ghost function Creators(k: nat, es: seq<Event>): seq<TaskId>
    requires Legal(true, k, es)
    ensures |Creators(k, es)| == |Run(true, k, es).stacks|
  {
    if es == [] then [0] else
      var past := Past(es);
      Creators(k, past) +
      if |Run(true, k, es).stacks| > |Run(true, k, past).stacks| then [Last(es).task] else []
  }

  ghost predicate HeldByCreator(s: State, creators: seq<TaskId>)
    requires |creators| == |s.stacks|
  {
    forall t :: Busy(s, t) && s.tasks[t].stack < |creators| ==> creators[s.tasks[t].stack] == t
  }

  lemma StepHeldByCreator(s: State, e: Event, creators: seq<TaskId>)
    requires AllWellFormed(s) && Enabled(s, e) && !e.Open? && s.stackVarKnown
    requires |creators| == |s.stacks| && HeldByCreator(s, creators)
    ensures |Step(s, e).stacks| == |s.stacks| + (if e.Call? && Isolates(s, e.task) then 1 else 0)
    ensures HeldByCreator(Step(s, e), creators + if e.Call? && Isolates(s, e.task) then [e.task] else [])
  {
    var s' := Step(s, e);
    assert TaskWellFormed(s, e.task);
    var creators' := creators + if e.Call? && Isolates(s, e.task) then [e.task] else [];
    forall t | Busy(s', t) && s'.tasks[t].stack < |creators'| ensures creators'[s'.tasks[t].stack] == t {
      if Busy(s, t) {
        assert TaskWellFormed(s, t);
        assert s'.tasks[t].stack == s.tasks[t].stack;
      }
    }
  }

  lemma {:induction false} SingleScopePrefix(k: nat, es: seq<Event>, m: nat)
    requires SingleScope(k, es) && 0 < m <= |es|
    ensures SingleScope(k, es[..m])
  {
    forall i | 1 <= i < m ensures es[..m][..i] == es[..i] {}
  }

  lemma {:induction false} RunHeldByCreator(k: nat, es: seq<Event>)
    requires Legal(true, k, es) && OneScope(es)
    ensures HeldByCreator(Run(true, k, es), Creators(k, es))
  {
    if es == [] {
      assert Run(true, k, es) == Initial(true, k);
    } else {
      var past := Past(es);
      RunHeldByCreator(k, past);
      RunWellFormed(true, k, past);
      if Last(es).Open? {
        assert past == [] && Run(true, k, es) == OpenStep(Initial(true, k), 0);
      } else {
        StepHeldByCreator(Run(true, k, past), Last(es), Creators(k, past));
      }
    }
  }

  lemma CreatorsGrow(k: nat, es: seq<Event>)
    requires Legal(true, k, es) && es != []
    ensures Creators(k, Past(es)) <= Creators(k, es)
  {
  }

  lemma {:induction false} CreatorsKept(k: nat, es: seq<Event>, m: nat)
    requires Legal(true, k, es) && m <= |es|
    ensures Legal(true, k, es[..m]) && Creators(k, es[..m]) <= Creators(k, es)
    decreases |es| - m
  {
    LegalPrefix(true, k, es, m);
    if m < |es| {
      PastPrefix(es[..m + 1], m);
      CreatorsGrow(k, es[..m + 1]);
      CreatorsKept(k, es, m + 1);
      assert Past(es[..m + 1]) == es[..m];
    } else {
      assert es[..m] == es;
    }
  }

  /** A call or a relay scope is opened or left. */
  predicate UsesStack(e: Event) { !e.Spawn? }

  /** The stack a push lands on, or the one a pop is tried on. */
  ghost function StackUsed(k: nat, es: seq<Event>, i: nat): StackId
    requires Legal(true, k, es) && i < |es| && UsesStack(es[i])
  {
    var s := StateAt(true, k, es, if es[i].Leave? then i else i + 1);
    if es[i].task in s.tasks then s.tasks[es[i].task].stack else 0
  }

  /** Over a whole run under at most one relay scope, a stack belongs to one task: two
      pushes or pops on the same stack are by the same task, the one that created it. */
  lemma OneTaskPerStack(k: nat, es: seq<Event>, i: nat, j: nat)
    requires Legal(true, k, es) && OneScope(es) && i < |es| && j < |es|
    requires UsesStack(es[i]) && UsesStack(es[j]) && StackUsed(k, es, i) == StackUsed(k, es, j)
    ensures es[i].task == es[j].task
  {
    UsedByCreator(k, es, i);
    UsedByCreator(k, es, j);
  }

  lemma UsedByCreator(k: nat, es: seq<Event>, i: nat)
    requires Legal(true, k, es) && OneScope(es) && i < |es| && UsesStack(es[i])
    ensures var id := StackUsed(k, es, i); id < |Creators(k, es)| && Creators(k, es)[id] == es[i].task
  {
    var m := if es[i].Leave? then i else i + 1;
    StateAtNext(true, k, es, i);
    CreatorsKept(k, es, m);
    RunHeldByCreator(k, es[..m]);
    RunWellFormed(true, k, es[..m]);
    var s := StateAt(true, k, es, m);
    assert Busy(s, es[i].task);
    assert TaskWellFormed(s, es[i].task);
  }
}
