/**
The game harness: reading batches off the action log, and the main loop that
executes them against the game and keeps the step accounts.
*/
module Harness {
  import opened Wrappers

  type Action = string

  // ------------------------------------------------------------ the action log

  datatype Line = Blank | Malformed | Batch(actions: seq<Action>)

  /** Tails the action log; `pos` counts the complete lines already read. */
  class ActionReader {
    var pos: nat

    constructor ()
      ensures pos == 0
    {
      pos := 0;
    }

    /** The next batch among the complete lines, or nothing for now. Lines are
        consumed in order; malformed ones are skipped at once, and a blank one
        ends the call when the time is up. */
    method NextBatch(lines: seq<Line>, expired: bool) returns (batch: Option<seq<Action>>)
      requires pos <= |lines|
      modifies this
      ensures old(pos) <= pos <= |lines|
      ensures batch.Some? ==> old(pos) < pos && lines[pos - 1] == Batch(batch.value)
      ensures forall i :: old(pos) <= i < pos && (batch.None? || i < pos - 1) ==> !lines[i].Batch?
      ensures batch.None? ==> pos == |lines| || (expired && old(pos) < pos && lines[pos - 1].Blank?)
    {
      while pos < |lines|
        invariant old(pos) <= pos <= |lines|
        invariant forall i :: old(pos) <= i < pos ==> !lines[i].Batch?
        decreases |lines| - pos
      {
        var line := lines[pos];
        pos := pos + 1;
        match line {
          case Batch(actions) => return Some(actions);
          case Malformed => continue;
          case Blank => if expired { return None; }
        }
      }
      return None;
    }
  }

  // ------------------------------------------------------------ the game

  datatype GameState = Running | Win | GameOver

  /** One call of the environment: it raises, or steps to a state with some levels completed. */
  datatype StepResult = Raised | Stepped(state: GameState, levels: nat)

  /** How a run ended, or nothing while its loop goes on. */
  datatype Termination = Going | MaxTurns | MaxEnvSteps | Won | Lost

  function ApplyCap(actions: seq<Action>, cap: int): (r: seq<Action>)
    ensures r <= actions && |r| == if cap > 0 && |actions| > cap then cap else |actions|
  {
    if cap <= 0 || |actions| <= cap then actions else actions[..cap]
  }

  function Sum(xs: seq<nat>): nat {
    if xs == [] then 0 else Sum(xs[..|xs| - 1]) + xs[|xs| - 1]
  }

  function Last(actions: seq<Action>): Option<Action> {
    if actions == [] then None else Some(actions[|actions| - 1])
  }

  lemma SumAppend(xs: seq<nat>, x: nat)
    ensures Sum(xs + [x]) == Sum(xs) + x
  {
    assert (xs + [x])[..|xs|] == xs;
  }

  /** Why a batch stopped before its last action. */
  datatype Stop = Done | Error | Winning | Dying | NextLevel

  /** How the batch goes on after an action that the game answers this way. */
  function Verdict(result: StepResult, levels: nat, last: bool): Stop {
    match result
    case Raised => Error
    case Stepped(Win, _) => Winning
    case Stepped(GameOver, _) => Dying
    case Stepped(Running, now) => if now > levels && !last then NextLevel else Done
  }

  /** How many of `n` actions are executed when the game answers from its `call`-th
      step on, and why the batch ends there. */
  function Played(game: nat -> StepResult, call: nat, levels: nat, n: nat): (nat, Stop)
    decreases n
  {
    if n == 0 then (0, Done)
    else
      var verdict := Verdict(game(call), levels, n == 1);
      if verdict == Done then
        var rest := Played(game, call + 1, game(call).levels, n - 1); (1 + rest.0, rest.1)
      else (if verdict == Error then 0 else 1, verdict)
  }

  /** The levels completed before the `i`-th action, as the game last reported them. */
  function LevelsBefore(game: nat -> StepResult, call: nat, levels: nat, i: nat): nat {
    if i == 0 then levels else if game(call + i - 1).Raised? then 0 else game(call + i - 1).levels
  }

  /** The `i`-th action leaves the game running on a level that was not just completed. */
  predicate Uneventful(game: nat -> StepResult, call: nat, levels: nat, i: nat) {
    game(call + i).Stepped? && game(call + i).state == Running && game(call + i).levels <= LevelsBefore(game, call, levels, i)
  }

  /** Where a batch of `n` stops, read off the game's answers alone: every action but the
      last one executed was uneventful, and what stopped it is an error of the next
      action, a win, a lost game, or a completed level with actions left. */
  predicate StopsAt(game: nat -> StepResult, call: nat, levels: nat, n: nat, done: nat, stop: Stop) {
    && done <= n
    && (forall i :: 0 <= i < done - 1 ==> Uneventful(game, call, levels, i))
    && match stop
       case Done => done == n && (n > 0 ==> game(call + n - 1).Stepped? && game(call + n - 1).state == Running)
       case Error => done < n && game(call + done).Raised? && (done > 0 ==> Uneventful(game, call, levels, done - 1))
       case Winning => done > 0 && game(call + done - 1).Stepped? && game(call + done - 1).state == Win
       case Dying => done > 0 && game(call + done - 1).Stepped? && game(call + done - 1).state == GameOver
       case NextLevel =>
         0 < done < n && game(call + done - 1).Stepped? && game(call + done - 1).state == Running
         && game(call + done - 1).levels > LevelsBefore(game, call, levels, done - 1)
  }

  lemma UneventfulLater(game: nat -> StepResult, call: nat, levels: nat, i: nat)
    requires game(call).Stepped?
    ensures LevelsBefore(game, call, levels, i + 1) == LevelsBefore(game, call + 1, game(call).levels, i)
    ensures Uneventful(game, call, levels, i + 1) <==> Uneventful(game, call + 1, game(call).levels, i)
  {
    assert call + 1 + i == call + (i + 1);
  }

  lemma StopsLater(game: nat -> StepResult, call: nat, levels: nat, n: nat, done: nat, stop: Stop)
    requires n > 0 && Verdict(game(call), levels, n == 1) == Done
    requires StopsAt(game, call + 1, game(call).levels, n - 1, done, stop)
    ensures StopsAt(game, call, levels, n, done + 1, stop)
  {
    forall i | 0 <= i < done ensures Uneventful(game, call, levels, i) {
      if i > 0 { UneventfulLater(game, call, levels, i - 1); }
    }
    if done > 0 { UneventfulLater(game, call, levels, done - 1); }
    assert call + 1 + done == call + (done + 1);
  }

  lemma {:induction false} PlayedStops(game: nat -> StepResult, call: nat, levels: nat, n: nat)
    ensures var (done, stop) := Played(game, call, levels, n); StopsAt(game, call, levels, n, done, stop)
    decreases n
  {
    if n > 0 && Verdict(game(call), levels, n == 1) == Done {
      var (done, stop) := Played(game, call + 1, game(call).levels, n - 1);
      PlayedStops(game, call + 1, game(call).levels, n - 1);
      StopsLater(game, call, levels, n, done, stop);
    }
  }

  lemma NotEarlier(game: nat -> StepResult, call: nat, levels: nat, n: nat, done: nat, stop: Stop, done': nat, stop': Stop)
    requires StopsAt(game, call, levels, n, done, stop) && StopsAt(game, call, levels, n, done', stop')
    ensures done >= done'
  {
    assert 0 < done < done' ==> Uneventful(game, call, levels, done - 1);
    assert done < done' - 1 ==> Uneventful(game, call, levels, done);
  }

  /** There is one such place. */
  lemma StopsOnce(game: nat -> StepResult, call: nat, levels: nat, n: nat, done: nat, stop: Stop, done': nat, stop': Stop)
    requires StopsAt(game, call, levels, n, done, stop) && StopsAt(game, call, levels, n, done', stop')
    ensures done == done' && stop == stop'
  {
    NotEarlier(game, call, levels, n, done, stop, done', stop');
    NotEarlier(game, call, levels, n, done', stop', done, stop);
  }

  /** The batch ends where the game's answers say, and nowhere else. */
  lemma PlayedIff(game: nat -> StepResult, call: nat, levels: nat, n: nat, done: nat, stop: Stop)
    ensures Played(game, call, levels, n) == (done, stop) <==> StopsAt(game, call, levels, n, done, stop)
  {
    var (d, s) := Played(game, call, levels, n);
    PlayedStops(game, call, levels, n);
    if StopsAt(game, call, levels, n, done, stop) { StopsOnce(game, call, levels, n, done, stop, d, s); }
  }

  /** Where the harness stands: calls made, levels completed, games lost, resets that
      stepped, environment steps, and the state the game last reported. */
  datatype Pos = Pos(calls: nat, levels: nat, gameOvers: nat, resets: nat, envSteps: nat, state: GameState)

  /** One call of the game with an action. */
  function Moved(game: nat -> StepResult, p: Pos): Pos {
    match game(p.calls)
    case Raised => p.(calls := p.calls + 1)
    case Stepped(state, now) => p.(calls := p.calls + 1, levels := now, envSteps := p.envSteps + 1, state := state)
  }

  /** The budget of lost games is used up. A negative one never is. */
  predicate Spent(allowed: int, gameOvers: nat) {
    allowed == 0 || (allowed > 0 && gameOvers >= allowed)
  }

  /** Recovery from a lost game: one reset within the budget. */
  function Recovered(game: nat -> StepResult, allowed: int, p: Pos): Pos {
    if Spent(allowed, p.gameOvers) then p
    else
      var q := Moved(game, p.(gameOvers := p.gameOvers + 1));
      if game(p.calls).Raised? then q else q.(resets := q.resets + 1)
  }

  function Settled(game: nat -> StepResult, allowed: int, p: Pos): Pos {
    if p.state == GameOver then Recovered(game, allowed, p) else p
  }

  /** A game is over after the recovery exactly when it was over before and no reset was
      left (a negative budget never runs out), or the reset raised, or it left the game over. */
  lemma OverAfterRecoveryIff(game: nat -> StepResult, allowed: int, p: Pos)
    ensures var q := Settled(game, allowed, p);
      q.state == GameOver <==>
      (p.state == GameOver && (0 <= allowed <= p.gameOvers || game(p.calls).Raised? || game(p.calls).state == GameOver))
  {
  }

  /** Where `n` actions lead, before any recovery. */
  function Reached(game: nat -> StepResult, p: Pos, n: nat): Pos
    decreases n
  {
    if n == 0 then p
    else if Verdict(game(p.calls), p.levels, n == 1) == Done then Reached(game, Moved(game, p), n - 1)
    else Moved(game, p)
  }

  /** After `done` actions the rest of the batch is played from the game's next answer. */
  predicate OnTrack(game: nat -> StepResult, p0: Pos, n: nat, done: nat, p: Pos)
    requires done <= n
  {
    var rest := Played(game, p.calls, p.levels, n - done);
    && Played(game, p0.calls, p0.levels, n) == (done + rest.0, rest.1)
    && Reached(game, p0, n) == Reached(game, p, n - done)
  }

  lemma StaysOnTrack(game: nat -> StepResult, p0: Pos, n: nat, done: nat, p: Pos)
    requires done < n && OnTrack(game, p0, n, done, p)
    ensures var verdict := Verdict(game(p.calls), p.levels, done + 1 == n);
      if verdict == Done then OnTrack(game, p0, n, done + 1, Moved(game, p))
      else Played(game, p0.calls, p0.levels, n) == (if verdict == Error then done else done + 1, verdict)
           && Reached(game, p0, n) == Moved(game, p)
  {
  }

  /** A batch ends in a lost game, or in a won one, exactly when it stops for that. */
  lemma {:induction false} StopTellsState(game: nat -> StepResult, p: Pos, n: nat)
    requires p.state == Running
    ensures var stop := Played(game, p.calls, p.levels, n).1;
      && (Reached(game, p, n).state == GameOver <==> stop == Dying)
      && (Reached(game, p, n).state == Win <==> stop == Winning)
    decreases n
  {
    if n > 0 && Verdict(game(p.calls), p.levels, n == 1) == Done { StopTellsState(game, Moved(game, p), n - 1); }
  }

  /** What a round sends to the game. */
  function Choice(batch: Option<seq<Action>>, forced: Action): seq<Action> {
    if batch.Some? then batch.value else [forced]
  }

  /** Where one round leads. */
  function AfterRound(game: nat -> StepResult, allowed: int, cap: int, p: Pos, chosen: seq<Action>): Pos {
    Settled(game, allowed, Reached(game, p, |ApplyCap(chosen, cap)|))
  }

  /** What one round executes. */
  function ExecutedIn(game: nat -> StepResult, cap: int, p: Pos, chosen: seq<Action>): seq<Action>
  {
    var actions := ApplyCap(chosen, cap);
    PlayedAtMost(game, p.calls, p.levels, |actions|);
    actions[..Played(game, p.calls, p.levels, |actions|).0]
  }

  lemma {:induction false} PlayedAtMost(game: nat -> StepResult, call: nat, levels: nat, n: nat)
    ensures Played(game, call, levels, n).0 <= n
    decreases n
  {
    if n > 0 && Verdict(game(call), levels, n == 1) == Done { PlayedAtMost(game, call + 1, game(call).levels, n - 1); }
  }

  lemma {:induction false} StepsReached(game: nat -> StepResult, p: Pos, n: nat)
    ensures Reached(game, p, n).envSteps <= p.envSteps + n
    decreases n
  {
    if n > 0 && Verdict(game(p.calls), p.levels, n == 1) == Done { StepsReached(game, Moved(game, p), n - 1); }
  }

  /** A round takes at most one step for each action of the capped batch, and one for a reset. */
  lemma RoundSteps(game: nat -> StepResult, allowed: int, cap: int, p: Pos, chosen: seq<Action>)
    ensures AfterRound(game, allowed, cap, p, chosen).envSteps <= p.envSteps + |ApplyCap(chosen, cap)| + 1
  {
    StepsReached(game, p, |ApplyCap(chosen, cap)|);
  }

  /** The harness at the head of the loop. */
  datatype Moment = Moment(pos: Pos, executed: seq<Action>, turn: nat)

  lemma OneMore(before: seq<Action>, actions: seq<Action>, i: nat)
    requires i < |actions|
    ensures before + actions[..i] + [actions[i]] == before + actions[..i + 1]
  {
  }

  class GameHarness {
    const game: nat -> StepResult
    const maxTurns: Option<int>
    const maxEnvSteps: int
    const cap: int
    const allowedGameOvers: int

    var calls: nat
    var turn: nat
    var envSteps: nat
    var levels: nat
    var levelActions: nat
    var gameOvers: nat
    var finalState: GameState
    var aiActions: seq<nat>
    var lastAction: Option<Action>
    /** Actions of the agent and forced ones that the game executed, in order. */
    ghost var executed: seq<Action>
    /** Resets that stepped. */
    ghost var resets: nat

    constructor (game: nat -> StepResult, maxTurns: Option<int>, maxEnvSteps: int, cap: int, allowedGameOvers: int)
      ensures Accounts() && AtLoopHead() && Position() == Pos(0, 0, 0, 0, 0, Running)
      ensures this.game == game && this.maxTurns == maxTurns && this.maxEnvSteps == maxEnvSteps && this.cap == cap
      ensures this.allowedGameOvers == allowedGameOvers && executed == [] && turn == 0
    {
      this.game, this.maxTurns, this.maxEnvSteps := game, maxTurns, maxEnvSteps;
      this.cap, this.allowedGameOvers := cap, allowedGameOvers;
      calls, turn, envSteps, levels, levelActions, gameOvers := 0, 0, 0, 0, 0, 0;
      finalState, aiActions, lastAction := Running, [], None;
      executed, resets := [], 0;
    }

    ghost function Position(): Pos
      reads this
    {
      Pos(calls, levels, gameOvers, resets, envSteps, finalState)
    }

    /** The books balance: every executed action is charged to a completed level or
        to the level in progress, and with the successful resets they are all the
        steps of the environment. */
    ghost predicate Accounts()
      reads this
    {
      && Sum(aiActions) + levelActions == |executed|
      && |executed| + resets == envSteps
      && resets <= gameOvers
      && (allowedGameOvers >= 0 ==> gameOvers <= allowedGameOvers)
      && lastAction == Last(executed)
    }

    /** The loop only comes round again in a state from which play can go on. */
    ghost predicate AtLoopHead()
      reads this
    {
      finalState == Running
    }

    /** No reset is left, or the last one raised or did not help. */
    ghost predicate BeyondRecovery()
      reads this
    {
      Spent(allowedGameOvers, gameOvers)
      || (calls > 0 && (game(calls - 1).Raised? || game(calls - 1).state == GameOver))
    }

    /** Recovery from a lost game: one recorded reset within the budget. */
    method AutoReset()
      requires Accounts() && finalState == GameOver
      modifies this
      ensures Accounts() && executed == old(executed) && turn == old(turn)
      ensures aiActions == old(aiActions) && levelActions == old(levelActions) && lastAction == old(lastAction)
      ensures Position() == Recovered(game, allowedGameOvers, old(Position()))
      ensures finalState == GameOver ==> BeyondRecovery()
    {
      if allowedGameOvers == 0 || (allowedGameOvers > 0 && gameOvers >= allowedGameOvers) {
        return;
      }
      gameOvers := gameOvers + 1;
      var result := game(calls);
      calls := calls + 1;
      if result.Raised? { return; }
      envSteps := envSteps + 1;
      resets := resets + 1;
      levels := result.levels;
      finalState := result.state;
    }

    /** Charges the actions in progress to the level they completed. */
    method CloseLevel()
      requires Accounts()
      modifies this`aiActions, this`levelActions
      ensures Accounts() && levelActions == 0 && aiActions == old(aiActions) + [old(levelActions)]
    {
      SumAppend(aiActions, levelActions);
      aiActions := aiActions + [levelActions];
      levelActions := 0;
    }

    /** Counts one executed action, as a step and towards the level in progress. */
    method Charge(action: Action)
      requires Accounts()
      modifies this`envSteps, this`levelActions, this`lastAction, this`executed
      ensures Accounts() && executed == old(executed) + [action]
      ensures envSteps == old(envSteps) + 1 && levelActions == old(levelActions) + 1
    {
      envSteps := envSteps + 1;
      levelActions := levelActions + 1;
      lastAction := Some(action);
      executed := executed + [action];
    }

    /** Takes over what the game reports and closes the level if one was completed. */
    method TakeOver(state: GameState, now: nat) returns (completed: bool)
      requires Accounts()
      modifies this`levels, this`finalState, this`aiActions, this`levelActions
      ensures Accounts() && finalState == state && levels == now
      ensures completed <==> now > old(levels)
      ensures aiActions == if completed then old(aiActions) + [old(levelActions)] else old(aiActions)
      ensures levelActions == if completed then 0 else old(levelActions)
    {
      completed := now > levels;
      levels, finalState := now, state;
      if completed { CloseLevel(); }
    }

    /** Executes one action and charges it, to the level it completes if it completes one. */
    method Execute(action: Action) returns (ok: bool, completed: bool)
      requires Accounts()
      modifies this
      ensures Accounts() && turn == old(turn) && Position() == Moved(game, old(Position()))
      ensures ok <==> game(old(calls)).Stepped?
      ensures executed == if ok then old(executed) + [action] else old(executed)
      ensures completed <==> ok && levels > old(levels)
      ensures aiActions == if completed then old(aiActions) + [old(levelActions) + 1] else old(aiActions)
      ensures levelActions == if completed then 0 else old(levelActions) + (if ok then 1 else 0)
    {
      var result := game(calls);
      calls := calls + 1;
      if result.Raised? { return false, false; }
      Charge(action);
      ok := true;
      completed := TakeOver(result.state, result.levels);
    }

    /** Executes one action and judges how the batch goes on: it ends on an error,
        a win, a lost game (after recovery), and at a completed level if any action is left. */
    method PlayAction(action: Action, last: bool) returns (stop: Stop)
      requires Accounts() && finalState == Running
      modifies this
      ensures Accounts() && turn == old(turn)
      ensures stop == Verdict(game(old(calls)), old(levels), last)
      ensures executed == if stop.Error? then old(executed) else old(executed) + [action]
      ensures Position() == Settled(game, allowedGameOvers, Moved(game, old(Position())))
      ensures finalState == GameOver ==> BeyondRecovery()
    {
      var ok, completed := Execute(action);
      if !ok { return Error; }
      if finalState == Win { return Winning; }
      if finalState == GameOver {
        AutoReset();
        return Dying;
      }
      return if completed && !last then NextLevel else Done;
    }

    /** Executes the first `done` actions of the batch, in order. It stops early
        only on an error, a win, a lost game or a completed level. */
    method RunActions(actions: seq<Action>) returns (done: nat, stop: Stop)
      requires Accounts() && finalState == Running
      modifies this
      ensures Accounts() && turn == old(turn)
      ensures (done, stop) == Played(game, old(calls), old(levels), |actions|)
      ensures done <= |actions| && executed == old(executed) + actions[..done]
      ensures Position() == Settled(game, allowedGameOvers, Reached(game, old(Position()), |actions|))
      ensures finalState == GameOver ==> BeyondRecovery()
    {
      done, stop := 0, Done;
      while done < |actions|
        invariant done <= |actions|
        invariant Accounts()
        invariant turn == old(turn) && finalState == Running && stop == Done
        invariant executed == old(executed) + actions[..done]
        invariant OnTrack(game, old(Position()), |actions|, done, Position())
      {
        StaysOnTrack(game, old(Position()), |actions|, done, Position());
        OneMore(old(executed), actions, done);
        stop := PlayAction(actions[done], done + 1 == |actions|);
        if stop.Error? { return; }
        done := done + 1;
        if !stop.Done? { return; }
      }
    }

    /** One pass through the loop body: the agent's batch, or one forced action.
        The game executes a prefix of it that respects the cap. */
    method PlayTurn(batch: Option<seq<Action>>, forced: Action, nudges: nat) returns (done: nat, end: Termination)
      requires Accounts() && AtLoopHead()
      modifies this
      ensures Accounts() && turn == old(turn) + nudges + 1
      ensures Position() == AfterRound(game, allowedGameOvers, cap, old(Position()), Choice(batch, forced))
      ensures executed == old(executed) + ExecutedIn(game, cap, old(Position()), Choice(batch, forced))
      ensures cap > 0 ==> envSteps <= old(envSteps) + cap + 1
      ensures end.Going? <==> AtLoopHead()
      ensures end.Won? <==> finalState == Win
      ensures end.Lost? <==> finalState == GameOver
      ensures end.Lost? ==> BeyondRecovery()
    {
      turn := turn + nudges;
      var actions := ApplyCap(Choice(batch, forced), cap);
      var stop;
      done, stop := RunActions(actions);
      RoundSteps(game, allowedGameOvers, cap, old(Position()), Choice(batch, forced));
      turn := turn + 1;
      if finalState == Win { return done, Won; }
      if finalState == GameOver { return done, Lost; }
      return done, Going;
    }

    ghost function Now(): Moment
      reads this
    {
      Moment(Position(), executed, turn)
    }

    /** The game is running and both limits are still ahead. */
    ghost predicate GoesOn(m: Moment) {
      && m.pos.state == Running && m.pos.envSteps < maxEnvSteps
      && (maxTurns.Some? ==> m.turn < maxTurns.value)
    }

    /** One round leads from one moment to the next: the batch is played as far as the game lets it. */
    ghost predicate Follows(m: Moment, chosen: seq<Action>, nudges: nat, next: Moment) {
      && next.pos == AfterRound(game, allowedGameOvers, cap, m.pos, chosen)
      && next.executed == m.executed + ExecutedIn(game, cap, m.pos, chosen)
      && next.turn == m.turn + nudges + 1
    }

    /** Round `k` of the run began below both limits, in a running game, and was played. */
    ghost predicate RoundAt(batches: seq<Option<seq<Action>>>, forced: nat -> Action, nudges: nat -> nat,
                            trace: seq<Moment>, k: nat)
      requires k < |batches| && k + 1 < |trace|
    {
      GoesOn(trace[k]) && Follows(trace[k], Choice(batches[k], forced(k)), nudges(k), trace[k + 1])
    }

    ghost predicate Traces(batches: seq<Option<seq<Action>>>, forced: nat -> Action, nudges: nat -> nat, trace: seq<Moment>) {
      1 <= |trace| <= |batches| + 1
      && forall k :: 0 <= k < |trace| - 1 ==> RoundAt(batches, forced, nudges, trace, k)
    }

    lemma TraceGrows(batches: seq<Option<seq<Action>>>, forced: nat -> Action, nudges: nat -> nat,
                     trace: seq<Moment>, next: Moment)
      requires Traces(batches, forced, nudges, trace) && |trace| <= |batches| && GoesOn(trace[|trace| - 1])
      requires Follows(trace[|trace| - 1], Choice(batches[|trace| - 1], forced(|trace| - 1)), nudges(|trace| - 1), next)
      ensures Traces(batches, forced, nudges, trace + [next])
    {
      var longer := trace + [next];
      forall k | 0 <= k < |longer| - 1 ensures RoundAt(batches, forced, nudges, longer, k) {
        if k < |trace| - 1 { assert RoundAt(batches, forced, nudges, trace, k); }
      }
    }

    /** The game, the batches and the limits determine the run: of two traces from one
        moment, one begins the other. */
    lemma {:induction false} TraceDetermined(batches: seq<Option<seq<Action>>>, forced: nat -> Action, nudges: nat -> nat,
                                             trace: seq<Moment>, other: seq<Moment>, k: nat)
      requires Traces(batches, forced, nudges, trace) && Traces(batches, forced, nudges, other)
      requires trace[0] == other[0] && k < |trace| && k < |other|
      ensures trace[k] == other[k]
    {
      if k > 0 {
        TraceDetermined(batches, forced, nudges, trace, other, k - 1);
        assert RoundAt(batches, forced, nudges, trace, k - 1) && RoundAt(batches, forced, nudges, other, k - 1);
      }
    }

    ghost predicate WithinLimit()
      reads this
    {
      cap > 0 ==> envSteps <= (if maxEnvSteps > 0 then maxEnvSteps + cap else 0)
    }

    /** One more round, below the limits. */
    method PlayRound(batches: seq<Option<seq<Action>>>, forced: nat -> Action, nudges: nat -> nat, n: nat, ghost trace: seq<Moment>)
      returns (end: Termination)
      requires Accounts() && GoesOn(Now()) && n < |batches|
      requires Traces(batches, forced, nudges, trace) && n == |trace| - 1 && trace[n] == Now()
      modifies this
      ensures Accounts() && WithinLimit() && Traces(batches, forced, nudges, trace + [Now()])
      ensures end != MaxTurns && end != MaxEnvSteps && EndsRight(end)
    {
      var done;
      done, end := PlayTurn(batches[n], forced(n), nudges(n));
      TraceGrows(batches, forced, nudges, trace, Now());
    }

    /** What each ending says. */
    ghost predicate EndsRight(end: Termination)
      reads this
    {
      && (end == Won <==> finalState == Win)
      && (end == Lost <==> finalState == GameOver)
      && (end == Lost ==> BeyondRecovery())
      && (end == MaxTurns ==> maxTurns.Some? && turn >= maxTurns.value)
      && (end == MaxEnvSteps ==> envSteps >= maxEnvSteps && (maxTurns.Some? ==> turn < maxTurns.value))
    }

    /** The loop, whatever the agent sends: every round played began in a running game
        below both limits and led where the game lets it; the books balance at the end,
        the step limit is overrun by at most one capped batch, the loop ends at the first
        limit or ending it meets, and a lost game ends it only beyond recovery. */
    method Play(batches: seq<Option<seq<Action>>>, forced: nat -> Action, nudges: nat -> nat)
      returns (end: Termination, ghost trace: seq<Moment>)
      requires Accounts() && AtLoopHead() && envSteps == 0
      modifies this
      ensures Accounts() && WithinLimit() && EndsRight(end)
      ensures Traces(batches, forced, nudges, trace) && trace[0] == old(Now()) && trace[|trace| - 1] == Now()
      ensures end.Going? ==> |trace| == |batches| + 1
    {
      trace, end := [Now()], Going;
      var n := 0;
      while n < |batches|
        invariant n <= |batches| && Accounts() && WithinLimit() && AtLoopHead() && end.Going?
        invariant Traces(batches, forced, nudges, trace) && n == |trace| - 1 && trace[0] == old(Now()) && trace[n] == Now()
      {
        if maxTurns.Some? && turn >= maxTurns.value { return MaxTurns, trace; }
        if envSteps >= maxEnvSteps { return MaxEnvSteps, trace; }
        end := PlayRound(batches, forced, nudges, n, trace);
        trace := trace + [Now()];
        n := n + 1;
        if !end.Going? { return; }
      }
    }
  }
}
