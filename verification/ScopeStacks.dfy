/**
The scope-stack protocol of the NeMo Relay middleware.

Tasks carry two context variables, copied by reference at task creation: the
current mutable scope stack, and the current relay scope with its owning task.
An agent call pushes a scope and pops it again; a pop is accepted only for the
handle on top.  Every block below runs without an `await`, so one event of the
model is one indivisible step of the event loop, and a run is any sequence of
events.
*/
module ScopeStacks {
  import opened Wrappers

  type Handle = nat
  type TaskId = nat
  type StackId = nat

  /** The value of the current-scope variable: a handle and the task that pushed it. */
  datatype Scope = Scope(handle: Handle, owner: TaskId)

  /** An open call: its handle, the scope its token restores, and the stack
      binding its stack token restores when the call was isolated. */
  datatype Frame = Frame(handle: Handle, prev: Option<Scope>, stackToken: Option<StackId>)

  datatype Task = Task(stack: StackId, scope: Option<Scope>, frames: seq<Frame>)

  /** `ambient` scopes are open before the run starts; handles and stacks are
      numbered in creation order.  `failures` counts rejected pops. */
  datatype State = State(
    stackVarKnown: bool,
    ambient: nat,
    tasks: map<TaskId, Task>,
    stacks: seq<seq<Handle>>,
    parents: seq<Option<Handle>>,
    failures: nat)

  datatype Event =
    | Spawn(task: TaskId, child: TaskId)
    | Call(task: TaskId)
    | Open(task: TaskId)
    | Leave(task: TaskId)

  // ------------------------------------------------------------ steps

  function AmbientHandles(k: nat): (hs: seq<Handle>) { seq(k, i => i) }

  function Initial(stackVarKnown: bool, ambient: nat): State {
    State(stackVarKnown, ambient, map[0 := Task(0, None, [])], [AmbientHandles(ambient)],
          seq(ambient, i requires 0 <= i => if i == 0 then None else Some(i - 1)), 0)
  }

  function Top(stack: seq<Handle>): Option<Handle> {
    if stack == [] then None else Some(stack[|stack| - 1])
  }

  predicate KnownTask(s: State, t: TaskId) {
    t in s.tasks && s.tasks[t].stack < |s.stacks|
  }

  predicate Isolates(s: State, t: TaskId)
    requires KnownTask(s, t)
  {
    var scope := s.tasks[t].scope;
    s.stackVarKnown && (scope.None? || scope.value.owner != t)
  }

  /** The scope that encloses the next call of `t`, as its context variable says. */
  function CallParent(s: State, t: TaskId): Option<Handle>
    requires KnownTask(s, t)
  {
    match s.tasks[t].scope
    case None => Top(s.stacks[s.tasks[t].stack])
    case Some(scope) => Some(scope.handle)
  }

  /** Push a new handle for `t` on stack `id` of `stacks` and make it current. */
  function Push(s: State, t: TaskId, stacks: seq<seq<Handle>>, id: StackId,
                parent: Option<Handle>, stackToken: Option<StackId>): State
    requires KnownTask(s, t) && id < |stacks|
  {
    var h := |s.parents|;
    var task := s.tasks[t];
    var frame := Frame(h, task.scope, stackToken);
    s.(tasks := s.tasks[t := Task(id, Some(Scope(h, t)), task.frames + [frame])],
       stacks := stacks[id := stacks[id] + [h]],
       parents := s.parents + [parent])
  }

  /** The entry half of the agent-call middleware. */
  function CallStep(s: State, t: TaskId): State
    requires KnownTask(s, t)
  {
    if Isolates(s, t) then
      Push(s, t, s.stacks + [[]], |s.stacks|, CallParent(s, t), Some(s.tasks[t].stack))
    else
      Push(s, t, s.stacks, s.tasks[t].stack, CallParent(s, t), None)
  }

  /** The entry half of `nemo_relay_scope`: it pushes on whatever stack is current. */
  function OpenStep(s: State, t: TaskId): State
    requires KnownTask(s, t)
  {
    Push(s, t, s.stacks, s.tasks[t].stack, Top(s.stacks[s.tasks[t].stack]), None)
  }

  predicate PopAccepted(s: State, t: TaskId)
    requires KnownTask(s, t) && s.tasks[t].frames != []
  {
    var task := s.tasks[t];
    Top(s.stacks[task.stack]) == Some(task.frames[|task.frames| - 1].handle)
  }

  /** The exit half of both: reset the scope, pop, then restore the stack binding. */
  function LeaveStep(s: State, t: TaskId): State
    requires KnownTask(s, t) && s.tasks[t].frames != []
  {
    var task := s.tasks[t];
    var n := |task.frames| - 1;
    var frame := task.frames[n];
    var ok := PopAccepted(s, t);
    var stack := s.stacks[task.stack];
    s.(tasks := s.tasks[t := Task(if frame.stackToken.Some? then frame.stackToken.value else task.stack,
                                  frame.prev, task.frames[..n])],
       stacks := if ok then s.stacks[task.stack := stack[..|stack| - 1]] else s.stacks,
       failures := if ok then s.failures else s.failures + 1)
  }

  /** A new task starts with a copy of the spawning task's context. */
  function SpawnStep(s: State, t: TaskId, child: TaskId): State
    requires KnownTask(s, t)
  {
    s.(tasks := s.tasks[child := Task(s.tasks[t].stack, s.tasks[t].scope, [])])
  }

  predicate Enabled(s: State, e: Event) {
    && KnownTask(s, e.task)
    && (e.Spawn? ==> e.child !in s.tasks)
    && (e.Leave? ==> s.tasks[e.task].frames != [])
  }

  function Step(s: State, e: Event): State
    requires Enabled(s, e)
  {
    match e
    case Spawn(t, child) => SpawnStep(s, t, child)
    case Call(t) => CallStep(s, t)
    case Open(t) => OpenStep(s, t)
    case Leave(t) => LeaveStep(s, t)
  }

  /** No other task has an open call on the stack that `t` would push on. */
  ghost predicate Free(s: State, t: TaskId)
    requires KnownTask(s, t)
  {
    forall u :: u in s.tasks && u != t && s.tasks[u].frames != [] ==> s.tasks[u].stack != s.tasks[t].stack
  }

  /** The pushes that do not isolate need a stack nobody else is using. */
  ghost predicate Guarded(s: State, e: Event)
    requires KnownTask(s, e.task)
  {
    && (e.Open? ==> Free(s, e.task))
    && (e.Call? && !s.stackVarKnown ==> Free(s, e.task))
  }

  // ------------------------------------------------------------ well-formed states

  function Handles(frames: seq<Frame>): (hs: seq<Handle>)
    ensures |hs| == |frames|
  {
    seq(|frames|, i requires 0 <= i < |frames| => frames[i].handle)
  }

  lemma HandlesAppend(frames: seq<Frame>, frame: Frame)
    ensures Handles(frames + [frame]) == Handles(frames) + [frame.handle]
    ensures Handles([]) == []
  {
  }

  lemma HandlesFront(frames: seq<Frame>)
    requires frames != []
    ensures Handles(frames) == Handles(frames[..|frames| - 1]) + [frames[|frames| - 1].handle]
  {
    HandlesAppend(frames[..|frames| - 1], frames[|frames| - 1]);
    assert frames[..|frames| - 1] + [frames[|frames| - 1]] == frames;
  }

  predicate Increasing(hs: seq<Handle>) {
    forall i, j :: 0 <= i < j < |hs| ==> hs[i] < hs[j]
  }

  /** The last of increasing handles occurs nowhere else. */
  lemma DropLast(hs: seq<Handle>)
    requires hs != [] && Increasing(hs)
    ensures Increasing(hs[..|hs| - 1])
    ensures forall h :: h in hs[..|hs| - 1] <==> h in hs && h != hs[|hs| - 1]
  {
    var front, last := hs[..|hs| - 1], hs[|hs| - 1];
    assert hs == front + [last];
  }

  predicate Within(hs: seq<Handle>, lo: nat, hi: nat) {
    forall i :: 0 <= i < |hs| ==> lo <= hs[i] < hi
  }

  predicate ScopeKnown(s: State, scope: Option<Scope>) {
    scope.Some? ==> scope.value.handle < |s.parents| && scope.value.owner in s.tasks
  }

  predicate FramesChained(t: TaskId, task: Task) {
    var n := |task.frames|;
    && (forall i :: 0 < i < n ==> task.frames[i].prev == Some(Scope(task.frames[i - 1].handle, t)))
    && (forall i :: 0 < i < n ==> task.frames[i].stackToken == None)
    && (n > 0 ==> task.scope == Some(Scope(task.frames[n - 1].handle, t)))
    && var outer := if n > 0 then task.frames[0].prev else task.scope;
       outer.Some? ==> outer.value.owner != t
  }

  predicate TaskWellFormed(s: State, t: TaskId)
    requires t in s.tasks
  {
    var task := s.tasks[t];
    && task.stack < |s.stacks|
    && FramesChained(t, task)
    && ScopeKnown(s, task.scope)
    && (task.frames != [] ==> ScopeKnown(s, task.frames[0].prev))
    && (task.frames != [] && task.frames[0].stackToken.Some? ==> task.frames[0].stackToken.value < |s.stacks|)
    && Increasing(Handles(task.frames)) && Within(Handles(task.frames), s.ambient, |s.parents|)
  }

  predicate AllWellFormed(s: State) {
    forall t :: t in s.tasks ==> TaskWellFormed(s, t)
  }

  predicate Opens(s: State, t: TaskId, h: Handle) {
    t in s.tasks && h in Handles(s.tasks[t].frames)
  }

  /** A handle is open in one task only. */
  ghost predicate Apart(s: State) {
    forall t, u, h :: Opens(s, t, h) && Opens(s, u, h) ==> t == u
  }

  predicate ParentsEarlier(parents: seq<Option<Handle>>) {
    forall h :: 0 <= h < |parents| && parents[h].Some? ==> parents[h].value < h
  }

  predicate StacksKnown(stacks: seq<seq<Handle>>, n: nat) {
    forall id :: 0 <= id < |stacks| ==> Within(stacks[id], 0, n)
  }

  /** What every step keeps, whether its pop is accepted or not. */
  ghost predicate WellFormed(s: State) {
    && |s.stacks| > 0
    && s.ambient <= |s.parents|
    && AllWellFormed(s)
    && Apart(s)
    && StacksKnown(s.stacks, |s.parents|)
    && ParentsEarlier(s.parents)
  }

  lemma OthersWellFormed(s: State, s': State, t: TaskId)
    requires AllWellFormed(s) && t in s.tasks && s'.tasks.Keys == s.tasks.Keys
    requires forall u :: u in s.tasks && u != t ==> s'.tasks[u] == s.tasks[u]
    requires |s.stacks| <= |s'.stacks| && |s.parents| <= |s'.parents| && s'.ambient == s.ambient
    requires TaskWellFormed(s', t)
    ensures AllWellFormed(s')
  {
    forall u | u in s'.tasks ensures TaskWellFormed(s', u) {
      if u != t { assert TaskWellFormed(s, u); }
    }
  }

  lemma SpawnWellFormed(s: State, t: TaskId, child: TaskId)
    requires WellFormed(s) && Enabled(s, Spawn(t, child))
    ensures WellFormed(SpawnStep(s, t, child))
  {
    var s' := SpawnStep(s, t, child);
    HandlesAppend([], Frame(0, None, None));
    forall u | u in s'.tasks ensures TaskWellFormed(s', u) {
      if u != child { assert TaskWellFormed(s, u); } else { assert TaskWellFormed(s, t); }
    }
    assert forall u, h :: Opens(s', u, h) ==> Opens(s, u, h);
  }

  /** The stack a push goes to: the task's own, or a new one for a task without open calls. */
  predicate PushTarget(s: State, t: TaskId, stacks: seq<seq<Handle>>, id: StackId)
    requires KnownTask(s, t)
  {
    || (stacks == s.stacks && id == s.tasks[t].stack)
    || (stacks == s.stacks + [[]] && id == |s.stacks| && s.tasks[t].frames == [])
  }

  lemma PushedWellFormed(s: State, t: TaskId, stacks: seq<seq<Handle>>, id: StackId,
                         parent: Option<Handle>, stackToken: Option<StackId>)
    requires KnownTask(s, t) && TaskWellFormed(s, t) && PushTarget(s, t, stacks, id) && s.ambient <= |s.parents|
    requires stackToken.Some? ==> s.tasks[t].frames == [] && stackToken.value < |s.stacks|
    ensures TaskWellFormed(Push(s, t, stacks, id, parent, stackToken), t)
  {
    var s' := Push(s, t, stacks, id, parent, stackToken);
    var frames, frames' := s.tasks[t].frames, s'.tasks[t].frames;
    assert forall i :: 0 <= i < |frames| ==> frames'[i] == frames[i];
    HandlesAppend(frames, frames'[|frames|]);
  }

  /** A push opens one new handle, in the task that pushes. */
  lemma PushOpens(s: State, t: TaskId, stacks: seq<seq<Handle>>, id: StackId,
                  parent: Option<Handle>, stackToken: Option<StackId>, u: TaskId, h: Handle)
    requires KnownTask(s, t) && id < |stacks|
    ensures Opens(Push(s, t, stacks, id, parent, stackToken), u, h)
            <==> Opens(s, u, h) || (u == t && h == |s.parents|)
  {
    var frames := s.tasks[t].frames;
    HandlesAppend(frames, Push(s, t, stacks, id, parent, stackToken).tasks[t].frames[|frames|]);
  }

  lemma PushApart(s: State, t: TaskId, stacks: seq<seq<Handle>>, id: StackId,
                  parent: Option<Handle>, stackToken: Option<StackId>)
    requires KnownTask(s, t) && id < |stacks| && AllWellFormed(s) && Apart(s)
    ensures Apart(Push(s, t, stacks, id, parent, stackToken))
  {
    var s' := Push(s, t, stacks, id, parent, stackToken);
    forall u, v, h | Opens(s', u, h) && Opens(s', v, h) ensures u == v {
      PushOpens(s, t, stacks, id, parent, stackToken, u, h);
      PushOpens(s, t, stacks, id, parent, stackToken, v, h);
      if Opens(s, u, h) { assert TaskWellFormed(s, u); }
      if Opens(s, v, h) { assert TaskWellFormed(s, v); }
    }
  }

  lemma PushHandles(stacks: seq<seq<Handle>>, stacks': seq<seq<Handle>>, id: StackId, n: nat)
    requires StacksKnown(stacks, n) && id < |stacks'| && (stacks' == stacks || stacks' == stacks + [[]])
    ensures StacksKnown(stacks'[id := stacks'[id] + [n]], n + 1)
  {
    assert forall j :: 0 <= j < |stacks'| ==> Within(stacks'[j], 0, n);
  }

  lemma ParentsAppend(parents: seq<Option<Handle>>, parent: Option<Handle>)
    requires ParentsEarlier(parents) && (parent.Some? ==> parent.value < |parents|)
    ensures ParentsEarlier(parents + [parent])
  {
  }

  lemma PushAllWellFormed(s: State, t: TaskId, stacks: seq<seq<Handle>>, id: StackId,
                          parent: Option<Handle>, stackToken: Option<StackId>)
    requires AllWellFormed(s) && KnownTask(s, t) && PushTarget(s, t, stacks, id) && s.ambient <= |s.parents|
    requires stackToken.Some? ==> s.tasks[t].frames == [] && stackToken.value < |s.stacks|
    ensures AllWellFormed(Push(s, t, stacks, id, parent, stackToken))
  {
    assert TaskWellFormed(s, t);
    PushedWellFormed(s, t, stacks, id, parent, stackToken);
    OthersWellFormed(s, Push(s, t, stacks, id, parent, stackToken), t);
  }

  lemma PushWellFormed(s: State, t: TaskId, stacks: seq<seq<Handle>>, id: StackId,
                       parent: Option<Handle>, stackToken: Option<StackId>)
    requires WellFormed(s) && KnownTask(s, t) && PushTarget(s, t, stacks, id)
    requires stackToken.Some? ==> s.tasks[t].frames == [] && stackToken.value < |s.stacks|
    requires parent.Some? ==> parent.value < |s.parents|
    ensures WellFormed(Push(s, t, stacks, id, parent, stackToken))
  {
    PushAllWellFormed(s, t, stacks, id, parent, stackToken);
    PushApart(s, t, stacks, id, parent, stackToken);
    PushHandles(s.stacks, stacks, id, |s.parents|);
    ParentsAppend(s.parents, parent);
  }

  lemma TopKnown(s: State, id: StackId)
    requires StacksKnown(s.stacks, |s.parents|) && id < |s.stacks|
    ensures Top(s.stacks[id]).Some? ==> Top(s.stacks[id]).value < |s.parents|
  {
    assert Within(s.stacks[id], 0, |s.parents|);
  }

  lemma CallWellFormed(s: State, t: TaskId)
    requires WellFormed(s) && KnownTask(s, t)
    ensures WellFormed(CallStep(s, t))
    ensures Isolates(s, t) ==> s.tasks[t].frames == []
  {
    assert TaskWellFormed(s, t);
    TopKnown(s, s.tasks[t].stack);
    if Isolates(s, t) {
      PushWellFormed(s, t, s.stacks + [[]], |s.stacks|, CallParent(s, t), Some(s.tasks[t].stack));
    } else {
      PushWellFormed(s, t, s.stacks, s.tasks[t].stack, CallParent(s, t), None);
    }
  }

  /** An exit closes the task's newest handle and no other. */
  lemma LeaveOpens(s: State, t: TaskId, u: TaskId, h: Handle)
    requires KnownTask(s, t) && s.tasks[t].frames != [] && Increasing(Handles(s.tasks[t].frames))
    ensures Opens(LeaveStep(s, t), u, h) <==> Opens(s, u, h) && !(u == t && h == Newest(s, t))
  {
    HandlesFront(s.tasks[t].frames);
    DropLast(Handles(s.tasks[t].frames));
    var frames := s.tasks[t].frames;
    assert Handles(frames)[..|frames| - 1] == Handles(frames[..|frames| - 1]);
  }

  function Newest(s: State, t: TaskId): Handle
    requires t in s.tasks && s.tasks[t].frames != []
  {
    s.tasks[t].frames[|s.tasks[t].frames| - 1].handle
  }

  lemma LeftWellFormed(s: State, t: TaskId)
    requires KnownTask(s, t) && TaskWellFormed(s, t) && s.tasks[t].frames != []
    ensures TaskWellFormed(LeaveStep(s, t), t)
    ensures LeaveStep(s, t).tasks[t].frames != [] ==> LeaveStep(s, t).tasks[t].stack == s.tasks[t].stack
  {
    var s' := LeaveStep(s, t);
    var frames, frames' := s.tasks[t].frames, s'.tasks[t].frames;
    assert forall i :: 0 <= i < |frames'| ==> frames'[i] == frames[i];
    HandlesFront(frames);
    assert forall i :: 0 <= i < |frames'| ==> Handles(frames')[i] == Handles(frames)[i];
    if frames' != [] {
      assert Handles(frames)[|frames'| - 1] == frames[|frames'| - 1].handle;
    }
  }

  lemma LeaveWellFormed(s: State, t: TaskId)
    requires WellFormed(s) && Enabled(s, Leave(t))
    ensures WellFormed(LeaveStep(s, t))
  {
    var s' := LeaveStep(s, t);
    assert TaskWellFormed(s, t);
    LeftWellFormed(s, t);
    OthersWellFormed(s, s', t);
    forall u, v, h | Opens(s', u, h) && Opens(s', v, h) ensures u == v {
      LeaveOpens(s, t, u, h);
      LeaveOpens(s, t, v, h);
    }
    assert Within(s.stacks[s.tasks[t].stack], 0, |s.parents|);
  }

  lemma StepWellFormed(s: State, e: Event)
    requires WellFormed(s) && Enabled(s, e)
    ensures WellFormed(Step(s, e))
  {
    match e
    case Spawn(t, child) => SpawnWellFormed(s, t, child);
    case Call(t) => CallWellFormed(s, t);
    case Open(t) =>
      TopKnown(s, s.tasks[t].stack);
      PushWellFormed(s, t, s.stacks, s.tasks[t].stack, Top(s.stacks[s.tasks[t].stack]), None);
    case Leave(t) => LeaveWellFormed(s, t);
  }

  // ------------------------------------------------------------ what the stacks hold

  function Base(s: State, id: StackId): seq<Handle> {
    if id == 0 then AmbientHandles(s.ambient) else []
  }

  /** Some task has the handle open on the stack. */
  ghost predicate OpenOn(s: State, id: StackId, h: Handle) {
    exists t :: Opens(s, t, h) && s.tasks[t].stack == id
  }

  /** The stack is what was there before and every handle open on it, in the order they were pushed. */
  ghost predicate PiledOn(s: State, id: StackId)
    requires id < |s.stacks|
  {
    && Increasing(s.stacks[id])
    && forall h :: h in s.stacks[id] <==> h in Base(s, id) || OpenOn(s, id, h)
  }

  ghost predicate Piled(s: State) {
    forall id: StackId :: id < |s.stacks| ==> PiledOn(s, id)
  }

  lemma InitialPiled(known: bool, ambient: nat)
    ensures WellFormed(Initial(known, ambient)) && Piled(Initial(known, ambient))
  {
    var s := Initial(known, ambient);
    HandlesAppend([], Frame(0, None, None));
    assert forall t, h :: !Opens(s, t, h);
  }

  lemma SpawnPiled(s: State, t: TaskId, child: TaskId)
    requires Piled(s) && Enabled(s, Spawn(t, child))
    ensures Piled(SpawnStep(s, t, child))
  {
    var s' := SpawnStep(s, t, child);
    HandlesAppend([], Frame(0, None, None));
    forall id: StackId | id < |s'.stacks| ensures PiledOn(s', id) {
      assert PiledOn(s, id);
      forall h ensures OpenOn(s', id, h) <==> OpenOn(s, id, h) {
        if OpenOn(s', id, h) {
          var u :| Opens(s', u, h) && s'.tasks[u].stack == id;
          assert Opens(s, u, h);
        }
        if OpenOn(s, id, h) {
          var u :| Opens(s, u, h) && s.tasks[u].stack == id;
          assert Opens(s', u, h);
        }
      }
    }
  }

  lemma PushOpenOn(s: State, t: TaskId, stacks: seq<seq<Handle>>, id: StackId,
                   parent: Option<Handle>, stackToken: Option<StackId>, j: StackId, h: Handle)
    requires KnownTask(s, t) && PushTarget(s, t, stacks, id)
    ensures OpenOn(Push(s, t, stacks, id, parent, stackToken), j, h)
            <==> OpenOn(s, j, h) || (j == id && h == |s.parents|)
  {
    var s' := Push(s, t, stacks, id, parent, stackToken);
    if OpenOn(s', j, h) {
      var u :| Opens(s', u, h) && s'.tasks[u].stack == j;
      PushOpens(s, t, stacks, id, parent, stackToken, u, h);
      assert Opens(s, u, h) ==> s.tasks[u].stack == j;
    }
    if OpenOn(s, j, h) {
      var u :| Opens(s, u, h) && s.tasks[u].stack == j;
      PushOpens(s, t, stacks, id, parent, stackToken, u, h);
      assert s'.tasks[u].stack == j;
    }
    if j == id && h == |s.parents| {
      PushOpens(s, t, stacks, id, parent, stackToken, t, h);
    }
  }

  lemma PushPiledOn(s: State, t: TaskId, stacks: seq<seq<Handle>>, id: StackId,
                    parent: Option<Handle>, stackToken: Option<StackId>, j: StackId)
    requires WellFormed(s) && Piled(s) && KnownTask(s, t) && PushTarget(s, t, stacks, id) && j < |stacks|
    ensures PiledOn(Push(s, t, stacks, id, parent, stackToken), j)
  {
    forall h ensures OpenOn(Push(s, t, stacks, id, parent, stackToken), j, h)
                     <==> OpenOn(s, j, h) || (j == id && h == |s.parents|) {
      PushOpenOn(s, t, stacks, id, parent, stackToken, j, h);
    }
    if j < |s.stacks| {
      assert PiledOn(s, j) && Within(s.stacks[j], 0, |s.parents|);
    } else {
      assert forall u :: u in s.tasks ==> TaskWellFormed(s, u);
      assert forall h :: !OpenOn(s, j, h);
    }
  }

  lemma PushPiled(s: State, t: TaskId, stacks: seq<seq<Handle>>, id: StackId,
                  parent: Option<Handle>, stackToken: Option<StackId>)
    requires WellFormed(s) && Piled(s) && KnownTask(s, t) && PushTarget(s, t, stacks, id)
    ensures Piled(Push(s, t, stacks, id, parent, stackToken))
  {
    forall j: StackId | j < |stacks| ensures PiledOn(Push(s, t, stacks, id, parent, stackToken), j) {
      PushPiledOn(s, t, stacks, id, parent, stackToken, j);
    }
  }

  lemma LeaveOpenOn(s: State, t: TaskId, j: StackId, h: Handle)
    requires WellFormed(s) && Enabled(s, Leave(t))
    ensures OpenOn(LeaveStep(s, t), j, h)
            <==> OpenOn(s, j, h) && !(j == s.tasks[t].stack && h == Newest(s, t))
  {
    var s' := LeaveStep(s, t);
    assert TaskWellFormed(s, t);
    LeftWellFormed(s, t);
    HandlesFront(s.tasks[t].frames);
    assert Opens(s, t, Newest(s, t));
    forall u ensures Opens(s', u, h) <==> Opens(s, u, h) && !(u == t && h == Newest(s, t)) {
      LeaveOpens(s, t, u, h);
    }
    if OpenOn(s', j, h) {
      var u :| Opens(s', u, h) && s'.tasks[u].stack == j;
      assert Opens(s, u, h) && s.tasks[u].stack == j;
    }
    if OpenOn(s, j, h) && !(j == s.tasks[t].stack && h == Newest(s, t)) {
      var u :| Opens(s, u, h) && s.tasks[u].stack == j;
      assert Opens(s', u, h) && s'.tasks[u].stack == j;
    }
  }

  lemma LeavePiled(s: State, t: TaskId)
    requires WellFormed(s) && Piled(s) && Enabled(s, Leave(t)) && PopAccepted(s, t)
    ensures Piled(LeaveStep(s, t))
  {
    var s' := LeaveStep(s, t);
    var id, newest := s.tasks[t].stack, Newest(s, t);
    assert TaskWellFormed(s, t);
    NewestIsOpen(s, t, newest);
    forall j: StackId | j < |s'.stacks| ensures PiledOn(s', j) {
      assert PiledOn(s, j);
      forall h ensures OpenOn(s', j, h) <==> OpenOn(s, j, h) && !(j == id && h == newest) {
        LeaveOpenOn(s, t, j, h);
      }
      if j == id {
        DropLast(s.stacks[id]);
        assert newest !in Base(s, id);
      }
    }
  }

  /** As long as no pop is rejected the stacks hold exactly the open handles, in push order. */
  lemma StepPiled(s: State, e: Event)
    requires WellFormed(s) && Piled(s) && Enabled(s, e) && Step(s, e).failures == s.failures
    ensures Piled(Step(s, e))
  {
    match e
    case Spawn(t, child) => SpawnPiled(s, t, child);
    case Call(t) =>
      CallWellFormed(s, t);
      if Isolates(s, t) {
        PushPiled(s, t, s.stacks + [[]], |s.stacks|, CallParent(s, t), Some(s.tasks[t].stack));
      } else {
        PushPiled(s, t, s.stacks, s.tasks[t].stack, CallParent(s, t), None);
      }
    case Open(t) => PushPiled(s, t, s.stacks, s.tasks[t].stack, Top(s.stacks[s.tasks[t].stack]), None);
    case Leave(t) => LeavePiled(s, t);
  }

  // ------------------------------------------------------------ when a pop is accepted

  predicate Busy(s: State, t: TaskId) {
    t in s.tasks && s.tasks[t].frames != []
  }

  /** Another task has a newer open call on the stack of `t`. */
  ghost predicate Overtaken(s: State, t: TaskId)
    requires Busy(s, t)
  {
    exists u :: Busy(s, u) && u != t && s.tasks[u].stack == s.tasks[t].stack && Newest(s, u) > Newest(s, t)
  }

  lemma NewestIsOpen(s: State, t: TaskId, h: Handle)
    requires t in s.tasks && TaskWellFormed(s, t) && s.tasks[t].frames != []
    ensures Opens(s, t, Newest(s, t))
    ensures Opens(s, t, h) ==> s.ambient <= h <= Newest(s, t)
  {
    HandlesFront(s.tasks[t].frames);
    var hs := Handles(s.tasks[t].frames);
    assert hs[|hs| - 1] == Newest(s, t);
  }

  /** A pop is accepted exactly when no other task has a newer open call on the same stack. */
  lemma AcceptedIff(s: State, t: TaskId)
    requires WellFormed(s) && Piled(s) && KnownTask(s, t) && Busy(s, t)
    ensures PopAccepted(s, t) <==> !Overtaken(s, t)
  {
    var id, newest, stack := s.tasks[t].stack, Newest(s, t), s.stacks[s.tasks[t].stack];
    assert TaskWellFormed(s, t) && PiledOn(s, id);
    NewestIsOpen(s, t, newest);
    assert newest in stack;
    var top := stack[|stack| - 1];
    if top == newest {
      forall u | Busy(s, u) && u != t && s.tasks[u].stack == id ensures Newest(s, u) <= newest {
        assert TaskWellFormed(s, u);
        NewestIsOpen(s, u, newest);
        assert Newest(s, u) in stack;
      }
    } else {
      assert OpenOn(s, id, top);
      var u :| Opens(s, u, top) && s.tasks[u].stack == id;
      assert TaskWellFormed(s, u);
      NewestIsOpen(s, u, top);
      NewestIsOpen(s, t, top);
    }
  }

  /** Every task with an open call finds its newest handle on top of its stack. */
  ghost predicate Sound(s: State) {
    forall t :: Busy(s, t) ==> KnownTask(s, t) && PopAccepted(s, t)
  }

  /** No two tasks with open calls use the same stack. */
  ghost predicate Unshared(s: State) {
    forall t, u :: Busy(s, t) && Busy(s, u) && t != u ==> s.tasks[t].stack != s.tasks[u].stack
  }

  /** All open calls are on top at once exactly when no stack is shared. */
  lemma SoundIffUnshared(s: State)
    requires WellFormed(s) && Piled(s)
    ensures Sound(s) <==> Unshared(s)
  {
    forall t | Busy(s, t) ensures KnownTask(s, t) && (PopAccepted(s, t) <==> !Overtaken(s, t)) {
      assert TaskWellFormed(s, t);
      AcceptedIff(s, t);
    }
    if Sound(s) {
      forall t, u | Busy(s, t) && Busy(s, u) && t != u ensures s.tasks[t].stack != s.tasks[u].stack {
        assert TaskWellFormed(s, t) && TaskWellFormed(s, u);
        NewestIsOpen(s, t, Newest(s, t));
        NewestIsOpen(s, u, Newest(s, u));
        assert Newest(s, t) != Newest(s, u);
        assert !Overtaken(s, t) && !Overtaken(s, u);
      }
    }
  }

  /** The handles on the stack of a task that shares it with nobody: its own, above what was there before. */
  predicate HoldsOwn(s: State, t: TaskId)
    requires KnownTask(s, t)
  {
    s.stacks[s.tasks[t].stack] == Base(s, s.tasks[t].stack) + Handles(s.tasks[t].frames)
  }

  lemma FirstIsMember(hs: seq<Handle>)
    ensures hs != [] ==> exists h :: h in hs
  {
    if hs != [] { assert hs[0] in hs; }
  }

  lemma {:induction false} SameIncreasing(a: seq<Handle>, b: seq<Handle>)
    requires Increasing(a) && Increasing(b) && forall h :: h in a <==> h in b
    ensures a == b
  {
    FirstIsMember(a);
    FirstIsMember(b);
    if a != [] {
      var x := a[|a| - 1];
      assert x in a && x in b;
      var y := b[|b| - 1];
      assert y in b && y in a;
      assert x == y;
      DropLast(a);
      DropLast(b);
      var front, back := a[..|a| - 1], b[..|b| - 1];
      assert forall h :: h in front <==> h in a && h != x;
      assert forall h :: h in back <==> h in b && h != x;
      SameIncreasing(front, back);
      assert a == front + [x] && b == back + [y];
    }
  }

  /** On unshared stacks each stack holds exactly one task's open handles in call order. */
  lemma UnsharedHoldsOwn(s: State, t: TaskId)
    requires WellFormed(s) && Piled(s) && Unshared(s) && KnownTask(s, t) && Busy(s, t)
    ensures HoldsOwn(s, t)
  {
    var id := s.tasks[t].stack;
    assert TaskWellFormed(s, t) && PiledOn(s, id);
    var all := Base(s, id) + Handles(s.tasks[t].frames);
    forall h ensures h in s.stacks[id] <==> h in all {
      if Opens(s, t, h) { assert OpenOn(s, id, h); }
      if OpenOn(s, id, h) {
        var u :| Opens(s, u, h) && s.tasks[u].stack == id;
        assert Busy(s, u);
      }
    }
    SameIncreasing(s.stacks[id], all);
  }

  // ------------------------------------------------------------ one push more

  lemma PushStays(s: State, t: TaskId, parent: Option<Handle>, u: TaskId)
    requires KnownTask(s, t) && u != t
    ensures var s' := Push(s, t, s.stacks, s.tasks[t].stack, parent, None);
      (Busy(s', u) <==> Busy(s, u)) && (Busy(s, u) ==> s'.tasks[u] == s.tasks[u])
  {
  }

  lemma PushUnshared(s: State, t: TaskId, parent: Option<Handle>)
    requires Unshared(s) && KnownTask(s, t)
    ensures Unshared(Push(s, t, s.stacks, s.tasks[t].stack, parent, None)) <==> Free(s, t)
  {
    var s' := Push(s, t, s.stacks, s.tasks[t].stack, parent, None);
    assert Busy(s', t) && s'.tasks[t].stack == s.tasks[t].stack;
    forall u | u != t ensures (Busy(s', u) <==> Busy(s, u)) && (Busy(s, u) ==> s'.tasks[u] == s.tasks[u]) {
      PushStays(s, t, parent, u);
    }
    if !Free(s, t) {
      var u :| u in s.tasks && u != t && s.tasks[u].frames != [] && s.tasks[u].stack == s.tasks[t].stack;
      assert Busy(s, u);
    }
  }

  /** Where no stack is shared, a push on the task's own stack leaves every open
      call on top exactly when no other task has an open call there. */
  lemma SharingPush(s: State, t: TaskId, parent: Option<Handle>)
    requires WellFormed(s) && Piled(s) && Unshared(s) && KnownTask(s, t)
    requires parent.Some? ==> parent.value < |s.parents|
    ensures Sound(Push(s, t, s.stacks, s.tasks[t].stack, parent, None)) <==> Free(s, t)
  {
    PushWellFormed(s, t, s.stacks, s.tasks[t].stack, parent, None);
    PushPiled(s, t, s.stacks, s.tasks[t].stack, parent, None);
    SoundIffUnshared(Push(s, t, s.stacks, s.tasks[t].stack, parent, None));
    PushUnshared(s, t, parent);
  }

  /** If some task does, its pop would be rejected if it came next. */
  lemma SharingPushRejects(s: State, t: TaskId, parent: Option<Handle>, u: TaskId)
    requires WellFormed(s) && KnownTask(s, t)
    requires Busy(s, u) && u != t && s.tasks[u].stack == s.tasks[t].stack
    ensures var s' := Push(s, t, s.stacks, s.tasks[t].stack, parent, None);
      Enabled(s', Leave(u)) && LeaveStep(s', u).failures == s.failures + 1
  {
    assert TaskWellFormed(s, u);
    NewestIsOpen(s, u, Newest(s, u));
    PushStays(s, t, parent, u);
  }

  /** Opening a relay scope on the inherited stack: every open call still finds its
      handle on top exactly when no other task has an open call there. If one does,
      its pop would be rejected if it came next. */
  lemma OpenSafeIff(s: State, t: TaskId)
    requires WellFormed(s) && Piled(s) && Unshared(s) && KnownTask(s, t)
    ensures Sound(OpenStep(s, t)) <==> Free(s, t)
    ensures !Free(s, t) ==>
              exists u :: u != t && Enabled(OpenStep(s, t), Leave(u))
                          && LeaveStep(OpenStep(s, t), u).failures == s.failures + 1
  {
    var parent := Top(s.stacks[s.tasks[t].stack]);
    TopKnown(s, s.tasks[t].stack);
    SharingPush(s, t, parent);
    if !Free(s, t) {
      var u :| u in s.tasks && u != t && s.tasks[u].frames != [] && s.tasks[u].stack == s.tasks[t].stack;
      SharingPushRejects(s, t, parent, u);
    }
  }

  /** Without the stack variable a call cannot isolate, and the same condition decides it. */
  lemma UnisolatedCallSafeIff(s: State, t: TaskId)
    requires WellFormed(s) && Piled(s) && Unshared(s) && KnownTask(s, t) && !s.stackVarKnown
    ensures Sound(CallStep(s, t)) <==> Free(s, t)
    ensures !Free(s, t) ==>
              exists u :: u != t && Enabled(CallStep(s, t), Leave(u))
                          && LeaveStep(CallStep(s, t), u).failures == s.failures + 1
  {
    assert TaskWellFormed(s, t);
    TopKnown(s, s.tasks[t].stack);
    SharingPush(s, t, CallParent(s, t));
    if !Free(s, t) {
      var u :| u in s.tasks && u != t && s.tasks[u].frames != [] && s.tasks[u].stack == s.tasks[t].stack;
      SharingPushRejects(s, t, CallParent(s, t), u);
    }
  }

  lemma IsolatedUnshared(s: State, t: TaskId, parent: Option<Handle>, stackToken: Option<StackId>)
    requires AllWellFormed(s) && Unshared(s) && KnownTask(s, t)
    ensures Unshared(Push(s, t, s.stacks + [[]], |s.stacks|, parent, stackToken))
  {
    var s' := Push(s, t, s.stacks + [[]], |s.stacks|, parent, stackToken);
    forall u | u != t && Busy(s', u) ensures Busy(s, u) && s'.tasks[u].stack == s.tasks[u].stack < |s.stacks| {
      assert TaskWellFormed(s, u);
    }
  }

  lemma LeaveUnshared(s: State, t: TaskId)
    requires Unshared(s) && KnownTask(s, t) && TaskWellFormed(s, t) && Busy(s, t)
    ensures Unshared(LeaveStep(s, t))
  {
    LeftWellFormed(s, t);
    assert forall u :: Busy(LeaveStep(s, t), u) ==> Busy(s, u) && LeaveStep(s, t).tasks[u].stack == s.tasks[u].stack;
  }

  /** Pushes that isolate, or that find their stack free, never share one. */
  lemma StepUnshared(s: State, e: Event)
    requires WellFormed(s) && Unshared(s) && Enabled(s, e) && Guarded(s, e)
    ensures Unshared(Step(s, e))
  {
    assert TaskWellFormed(s, e.task);
    match e
    case Spawn(t, child) => assert forall u :: Busy(SpawnStep(s, t, child), u) ==> Busy(s, u);
    case Open(t) => PushUnshared(s, t, Top(s.stacks[s.tasks[t].stack]));
    case Leave(t) => LeaveUnshared(s, t);
    case Call(t) =>
      if Isolates(s, t) {
        IsolatedUnshared(s, t, CallParent(s, t), Some(s.tasks[t].stack));
      } else {
        assert Busy(s, t) ==> Free(s, t) by {
          assert forall u :: u in s.tasks && s.tasks[u].frames != [] ==> Busy(s, u);
        }
        PushUnshared(s, t, CallParent(s, t));
      }
  }

  // ------------------------------------------------------------ the middleware

  /** The mutable state the middleware works on: each task's two context
      variables with the locals of its open calls, and the scope stacks. */
  class RelayRuntime {
    const stackVarKnown: bool
    const ambient: nat
    var tasks: map<TaskId, Task>
    var stacks: seq<seq<Handle>>
    var parents: seq<Option<Handle>>
    var failures: nat

    ghost function View(): State
      reads this
    {
      State(stackVarKnown, ambient, tasks, stacks, parents, failures)
    }

    constructor (stackVarKnown: bool, ambient: nat)
      ensures View() == Initial(stackVarKnown, ambient)
    {
      this.stackVarKnown, this.ambient := stackVarKnown, ambient;
      tasks := map[0 := Task(0, None, [])];
      stacks := [AmbientHandles(ambient)];
      parents := seq(ambient, i requires 0 <= i => if i == 0 then None else Some(i - 1));
      failures := 0;
    }

    method PushScope(id: StackId, parent: Option<Handle>) returns (handle: Handle)
      requires id < |stacks|
      modifies this`stacks, this`parents
      ensures handle == |old(parents)|
      ensures stacks == old(stacks)[id := old(stacks)[id] + [handle]]
      ensures parents == old(parents) + [parent]
    {
      handle := |parents|;
      stacks := stacks[id := stacks[id] + [handle]];
      parents := parents + [parent];
    }

    /** Only the top of a stack can be popped. */
    method PopScope(id: StackId, handle: Handle) returns (ok: bool)
      requires id < |stacks|
      modifies this`stacks
      ensures ok == (Top(old(stacks)[id]) == Some(handle))
      ensures stacks == if ok then old(stacks)[id := old(stacks)[id][..|old(stacks)[id]| - 1]] else old(stacks)
    {
      ok := Top(stacks[id]) == Some(handle);
      if ok {
        stacks := stacks[id := stacks[id][..|stacks[id]| - 1]];
      }
    }

    method SpawnTask(t: TaskId, child: TaskId)
      requires KnownTask(View(), t) && child !in tasks
      modifies this
      ensures View() == SpawnStep(old(View()), t, child)
    {
      tasks := tasks[child := Task(tasks[t].stack, tasks[t].scope, [])];
    }

    method EnterCall(t: TaskId)
      requires KnownTask(View(), t)
      modifies this
      ensures View() == CallStep(old(View()), t)
    {
      var prev := tasks[t].scope;
      var parent: Option<Handle>, owner: Option<TaskId>;
      if prev == None {
        parent, owner := Top(stacks[tasks[t].stack]), None;
      } else {
        parent, owner := Some(prev.value.handle), Some(prev.value.owner);
      }
      var stackToken := None;
      if owner != Some(t) && stackVarKnown {
        stackToken := Some(tasks[t].stack);
        stacks := stacks + [[]];
        tasks := tasks[t := tasks[t].(stack := |stacks| - 1)];
      }
      var handle := PushScope(tasks[t].stack, parent);
      tasks := tasks[t := tasks[t].(scope := Some(Scope(handle, t)),
                                    frames := tasks[t].frames + [Frame(handle, prev, stackToken)])];
    }

    method OpenScope(t: TaskId)
      requires KnownTask(View(), t)
      modifies this
      ensures View() == OpenStep(old(View()), t)
    {
      var prev := tasks[t].scope;
      var handle := PushScope(tasks[t].stack, Top(stacks[tasks[t].stack]));
      tasks := tasks[t := tasks[t].(scope := Some(Scope(handle, t)),
                                    frames := tasks[t].frames + [Frame(handle, prev, None)])];
    }

    method LeaveCall(t: TaskId)
      requires KnownTask(View(), t) && tasks[t].frames != []
      modifies this
      ensures View() == LeaveStep(old(View()), t)
    {
      var n := |tasks[t].frames| - 1;
      var frame := tasks[t].frames[n];
      tasks := tasks[t := tasks[t].(scope := frame.prev, frames := tasks[t].frames[..n])];
      var ok := PopScope(tasks[t].stack, frame.handle);
      if !ok {
        failures := failures + 1;
      }
      if frame.stackToken.Some? {
        tasks := tasks[t := tasks[t].(stack := frame.stackToken.value)];
      }
    }
  }
}
