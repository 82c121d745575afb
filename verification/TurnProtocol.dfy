/**
The file protocol between the game harness and the agent.

Both append to logs the other reads: the harness publishes states with a turn
number, the agent submits action batches for the turn it has seen.  The agent
reads the states and appends its batch in separate steps, so the harness may
publish in between.  A run is any interleaving of the two.
*/
module TurnProtocol {
  import opened Wrappers

  /** Where the harness is: waiting on one of the three rungs of the silence
      ladder, executing a batch or a forced action, or stopped. */
  datatype Phase = Waiting(rung: nat) | Executing | Stopped

  /** `polled` says the current wait has looked at the log and found nothing new;
      `seen` is the turn of the state the agent has read and not yet answered. */
  datatype State = State(
    gentle: bool,
    phase: Phase,
    polled: bool,
    turn: nat,
    states: seq<nat>,
    actions: seq<nat>,
    pos: nat,
    consumed: seq<nat>,
    seen: Option<nat>,
    nudges: nat,
    forced: nat,
    rounds: nat)

  datatype Event = Poll | Take | Timeout | Publish | Stop | Look | Submit | GiveUp

  function Initial(gentle: bool): State {
    State(gentle, Waiting(1), false, 0, [0], [], 0, [], None, 0, 0, 0)
  }

  predicate Enabled(s: State, e: Event) {
    match e
    case Poll => s.phase.Waiting? && s.pos == |s.actions|
    case Take => s.phase.Waiting? && s.pos < |s.actions|
    case Timeout => s.phase.Waiting? && s.polled
    case Publish => s.phase.Executing?
    case Stop => s.phase == Waiting(1)
    case Look => s.seen.None? && s.states != []
    case Submit => s.seen.Some?
    case GiveUp => s.seen.Some?
  }

  function Step(s: State, e: Event): State
    requires Enabled(s, e)
  {
    match e
    case Poll => s.(polled := true)
    case Take =>
      s.(phase := Executing, polled := false, pos := s.pos + 1, consumed := s.consumed + [s.actions[s.pos]])
    case Timeout =>
      if s.phase.rung >= 3 then s.(phase := Executing, polled := false, forced := s.forced + 1)
      else
        var rung := if s.phase.rung == 1 && s.gentle then 2 else 3;
        s.(phase := Waiting(rung), polled := false, turn := s.turn + 1, states := s.states + [s.turn + 1],
           nudges := s.nudges + 1)
    case Publish =>
      s.(phase := Waiting(1), polled := false, turn := s.turn + 1, states := s.states + [s.turn + 1],
         rounds := s.rounds + 1)
    case Stop => s.(phase := Stopped, states := s.states + [s.turn])
    case Look => s.(seen := Some(s.states[|s.states| - 1]))
    case Submit =>
      if s.actions != [] && s.actions[|s.actions| - 1] == s.seen.value then s.(seen := None)
      else s.(actions := s.actions + [s.seen.value], seen := None)
    case GiveUp => s.(seen := None)
  }

  predicate NonDecreasing(xs: seq<nat>) {
    forall i, j :: 0 <= i <= j < |xs| ==> xs[i] <= xs[j]
  }

  predicate StrictlyIncreasing(xs: seq<nat>) {
    forall i, j :: 0 <= i < j < |xs| ==> xs[i] < xs[j]
  }

  predicate Answered(s: State, turn: nat) {
    s.actions != [] && turn <= s.actions[|s.actions| - 1]
  }

  /** Batches the agent can still add before the next state is published. */
  function Pending(s: State): nat {
    (if s.seen.Some? && !Answered(s, s.seen.value) then 1 else 0) +
    (if !Answered(s, s.turn) && s.seen != Some(s.turn) then 1 else 0)
  }

  /** Unread batches and batches still to come for the published turns. */
  function Load(s: State): int {
    |s.actions| - s.pos + Pending(s)
  }

  function LoadBound(s: State): int {
    if s.phase.Executing? || s.polled then 2 else 3
  }

  predicate TurnsKnown(s: State) {
    && (s.actions != [] ==> s.actions[|s.actions| - 1] <= s.turn)
    && (s.seen.Some? ==> s.seen.value <= s.turn && (s.actions != [] ==> s.actions[|s.actions| - 1] <= s.seen.value))
  }

  predicate Inv(s: State) {
    && Load(s) <= LoadBound(s)
    && s.states != [] && NonDecreasing(s.states) && s.states[|s.states| - 1] == s.turn
    && StrictlyIncreasing(s.actions)
    && (forall i :: 0 <= i < |s.actions| ==> s.actions[i] <= s.turn)
    && TurnsKnown(s)
    && s.pos <= |s.actions| && s.consumed == s.actions[..s.pos]
    && s.turn == s.nudges + s.rounds
    && s.pos + s.forced == s.rounds + (if s.phase.Executing? then 1 else 0)
  }

  /** The nudges of a wait that ends in a forced advance. */
  function Ladder(s: State): nat { if s.gentle then 2 else 1 }

  /** The silence ladder: a wait has at most one gentle and one urgent nudge, in this
      order, and the harness only forces an advance after all of them. */
  predicate LadderKept(s: State) {
    && (s.phase.Waiting? ==> s.phase.rung == 1 || s.phase.rung == 3 || (s.phase.rung == 2 && s.gentle))
    && var inWait := if s.phase.Waiting? then (if s.phase.rung == 1 then 0 else if s.phase.rung == 2 then 1 else Ladder(s)) else 0;
       && s.nudges >= inWait + s.forced * Ladder(s)
       && s.nudges <= inWait + (s.pos + s.forced) * Ladder(s)
  }

  lemma StepLadder(s: State, e: Event)
    requires LadderKept(s) && Enabled(s, e)
    ensures LadderKept(Step(s, e))
  {
  }

  /** The turns published are those up to the current one, each nudge and each round
      publishes one state, and the agent only answers turns that were published. */
  ghost predicate TurnsPublished(s: State) {
    && s.states != [] && s.states[|s.states| - 1] == s.turn
    && (forall t: nat :: t in s.states <==> t <= s.turn)
    && |s.states| == 1 + s.nudges + s.rounds + (if s.phase.Stopped? then 1 else 0)
    && (s.seen.Some? ==> s.seen.value in s.states)
    && (forall t :: t in s.actions ==> t in s.states)
  }

  lemma StepPublished(s: State, e: Event)
    requires TurnsPublished(s) && Enabled(s, e)
    ensures TurnsPublished(Step(s, e))
  {
    var s' := Step(s, e);
    if s'.states != s.states {
      assert s'.states == s.states + [s'.turn];
      assert forall t: nat :: t in s'.states <==> t in s.states || t == s'.turn;
    }
  }

  lemma AppendTurn(xs: seq<nat>, t: nat)
    requires xs != [] ==> xs[|xs| - 1] <= t
    ensures NonDecreasing(xs) ==> NonDecreasing(xs + [t])
    ensures StrictlyIncreasing(xs) && (xs != [] ==> xs[|xs| - 1] < t) ==> StrictlyIncreasing(xs + [t])
  {
  }

  lemma StepLoad(s: State, e: Event)
    requires TurnsKnown(s) && Load(s) <= LoadBound(s) && Enabled(s, e)
    requires s.states != [] && s.states[|s.states| - 1] == s.turn
    ensures Load(Step(s, e)) <= LoadBound(Step(s, e))
    ensures TurnsKnown(Step(s, e))
  {
    var s' := Step(s, e);
    assert Pending(s') <= Pending(s) + (if e.Timeout? || e.Publish? then 1 else if s'.actions != s.actions then -1 else 0);
    assert Pending(s) <= 2;
    assert |s'.actions| == |s.actions| + (if s'.actions != s.actions then 1 else 0);
    assert e.Take? ==> s'.pos == s.pos + 1;
    assert !e.Take? ==> s'.pos == s.pos;
  }

  lemma HarnessStepInv(s: State, e: Event)
    requires Inv(s) && Enabled(s, e) && Load(Step(s, e)) <= LoadBound(Step(s, e))
    requires e.Poll? || e.Take? || e.Timeout? || e.Publish? || e.Stop?
    ensures Inv(Step(s, e))
  {
    if e.Take? {
      assert s.actions[..s.pos] + [s.actions[s.pos]] == s.actions[..s.pos + 1];
    } else if !e.Poll? {
      AppendTurn(s.states, if e.Stop? then s.turn else s.turn + 1);
    }
  }

  lemma SubmitInv(s: State)
    requires Inv(s) && Enabled(s, Submit) && Load(Step(s, Submit)) <= LoadBound(Step(s, Submit))
    requires s.actions == [] || s.actions[|s.actions| - 1] != s.seen.value
    ensures Inv(Step(s, Submit))
  {
    var actions := s.actions + [s.seen.value];
    AppendTurn(s.actions, s.seen.value);
    assert StrictlyIncreasing(actions);
    assert actions[..s.pos] == s.actions[..s.pos];
  }

  lemma AgentStepInv(s: State, e: Event)
    requires Inv(s) && Enabled(s, e) && Load(Step(s, e)) <= LoadBound(Step(s, e)) && (e.Look? || e.Submit? || e.GiveUp?)
    ensures Inv(Step(s, e))
  {
    if e.Submit? && (s.actions == [] || s.actions[|s.actions| - 1] != s.seen.value) {
      SubmitInv(s);
    }
  }

  lemma StepInv(s: State, e: Event)
    requires Inv(s) && Enabled(s, e)
    ensures Inv(Step(s, e))
  {
    StepLoad(s, e);
    if e.Look? || e.Submit? || e.GiveUp? { AgentStepInv(s, e); } else { HarnessStepInv(s, e); }
  }

  /** Distinct turns up to `t` number at most `t + 1`. */
  lemma {:induction false} CountTurns(xs: seq<nat>, t: nat)
    requires StrictlyIncreasing(xs) && forall i :: 0 <= i < |xs| ==> xs[i] <= t
    ensures |xs| <= t + 1
    decreases |xs|
  {
    if |xs| > 1 {
      var n := |xs| - 1;
      assert xs[n - 1] < xs[n];
      CountTurns(xs[..n], xs[n] - 1);
    }
  }

  ghost predicate Legal(s: State, es: seq<Event>)
    decreases |es|
  {
    es == [] || (Enabled(s, es[0]) && Legal(Step(s, es[0]), es[1..]))
  }

  ghost function Run(s: State, es: seq<Event>): State
    requires Legal(s, es)
    decreases |es|
  {
    if es == [] then s else Run(Step(s, es[0]), es[1..])
  }

  lemma {:induction false} RunInv(s: State, es: seq<Event>)
    requires Legal(s, es) && Inv(s)
    ensures Inv(Run(s, es))
    decreases |es|
  {
    if es != [] {
      StepInv(s, es[0]);
      RunInv(Step(s, es[0]), es[1..]);
    }
  }

  /** Published turns never decrease, at most one batch is submitted per turn and
      batches come in turn order, each batch is consumed once and in submission
      order, and at most three batches wait unread, two while one executes, and
      never more than nudges and forced advances allow. */
  predicate Safe(s: State) {
    && NonDecreasing(s.states)
    && StrictlyIncreasing(s.actions)
    && s.pos <= |s.actions| && s.consumed == s.actions[..s.pos]
    && |s.actions| - s.pos <= (if s.phase.Executing? then 2 else 3)
    && |s.actions| - s.pos <= s.nudges + s.forced + (if s.phase.Executing? then 0 else 1)
  }

  lemma InvSafe(s: State)
    requires Inv(s)
    ensures Safe(s)
  {
    CountTurns(s.actions, s.turn);
  }

  /** Every interleaving of harness and agent is safe. */
  lemma ProtocolSafe(gentle: bool, es: seq<Event>)
    requires Legal(Initial(gentle), es)
    ensures Safe(Run(Initial(gentle), es))
  {
    assert Inv(Initial(gentle));
    RunInv(Initial(gentle), es);
    InvSafe(Run(Initial(gentle), es));
  }

  lemma {:induction false} RunLadder(s: State, es: seq<Event>)
    requires Legal(s, es) && LadderKept(s) && TurnsPublished(s)
    ensures LadderKept(Run(s, es)) && TurnsPublished(Run(s, es))
    decreases |es|
  {
    if es != [] {
      StepLadder(s, es[0]);
      StepPublished(s, es[0]);
      RunLadder(Step(s, es[0]), es[1..]);
    }
  }

  lemma StartsWell(s: State)
    requires s == Initial(s.gentle)
    ensures LadderKept(s) && TurnsPublished(s)
  {
  }

  /** Every interleaving keeps the silence ladder, publishes one state for each nudge and
      each round, and lets the agent answer only turns that were published. */
  lemma LadderSafe(gentle: bool, es: seq<Event>)
    requires Legal(Initial(gentle), es)
    ensures LadderKept(Run(Initial(gentle), es)) && TurnsPublished(Run(Initial(gentle), es))
  {
    StartsWell(Initial(gentle));
    RunLadder(Initial(gentle), es);
  }

  lemma {:induction false} RunSnoc(s: State, es: seq<Event>, e: Event)
    requires Legal(s, es) && Enabled(Run(s, es), e)
    ensures Legal(s, es + [e]) && Run(s, es + [e]) == Step(Run(s, es), e)
    decreases |es|
  {
    if es == [] {
      assert [e][1..] == [];
    } else {
      assert (es + [e])[1..] == es[1..] + [e];
      RunSnoc(Step(s, es[0]), es[1..], e);
    }
  }

  /** An agent that answers an old state late, just after the harness last looked. */
  lemma HarnessOutpacesAgent() returns (es: seq<Event>)
    ensures Legal(Initial(true), es)
    ensures var s := Run(Initial(true), es);
            s.phase == Waiting(3) && s.polled && s.seen == Some(0) && s.turn == 2 && s.states == [0, 1, 2]
            && s.actions == [] && s.pos == 0 && s.nudges == 2 && s.forced == 0
  {
    es := [];
    RunSnoc(Initial(true), es, Look);    es := es + [Look];
    RunSnoc(Initial(true), es, Poll);    es := es + [Poll];
    RunSnoc(Initial(true), es, Timeout); es := es + [Timeout];
    RunSnoc(Initial(true), es, Poll);    es := es + [Poll];
    RunSnoc(Initial(true), es, Timeout); es := es + [Timeout];
    RunSnoc(Initial(true), es, Poll);    es := es + [Poll];
  }

  /** It answers the oldest and the newest state before the harness has moved on. */
  lemma AgentAnswersTwice() returns (es: seq<Event>)
    ensures Legal(Initial(true), es)
    ensures var s := Run(Initial(true), es);
            s.phase == Waiting(3) && s.polled && s.seen == None && s.turn == 2 && s.states == [0, 1, 2]
            && s.actions == [0, 2] && s.pos == 0
  {
    es := HarnessOutpacesAgent();
    RunSnoc(Initial(true), es, Submit);  es := es + [Submit];
    RunSnoc(Initial(true), es, Look);    es := es + [Look];
    RunSnoc(Initial(true), es, Submit);  es := es + [Submit];
  }

  /** The bound of three is attained at the head of the loop. */
  lemma ThreeUnreadReachable()
    ensures exists es :: Legal(Initial(true), es) &&
              Run(Initial(true), es).phase == Waiting(1) &&
              |Run(Initial(true), es).actions| - Run(Initial(true), es).pos == 3
  {
    var es := AgentAnswersTwice();
    RunSnoc(Initial(true), es, Timeout); es := es + [Timeout];
    RunSnoc(Initial(true), es, Publish); es := es + [Publish];
    RunSnoc(Initial(true), es, Look);    es := es + [Look];
    RunSnoc(Initial(true), es, Submit);  es := es + [Submit];
  }
}
