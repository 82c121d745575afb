/**
The two span exporters behind the viewer: one writes a message file per
language-model call, the other appends events to the log. Both number the calls
of a step with a counter of their own and never speak to each other. Times are
whole nanoseconds.
*/
module Exporters {
  import opened Wrappers

  // ------------------------------------------------------- the event log

  /** A line of the event log; a broken one stops every reader. */
  datatype Line = EnvStep(time: int, step: int) | OtherEvent | Broken

  /** The environment step a reader settles on, having settled on `cur` so far. */
  function Scan(log: seq<Line>, t: int, cur: int): int {
    if log == [] then cur
    else match log[0]
      case Broken => cur
      case OtherEvent => Scan(log[1..], t, cur)
      case EnvStep(time, step) => if time <= t then Scan(log[1..], t, step) else cur
  }

  function StepFor(log: seq<Line>, t: int): int {
    Scan(log, t, 0)
  }

  /** The reader's loop over the lines. */
  method FindStep(log: seq<Line>, t: int) returns (cur: int)
    ensures cur == StepFor(log, t)
  {
    cur := 0;
    for i := 0 to |log|
      invariant Scan(log[i..], t, cur) == StepFor(log, t)
    {
      match log[i]
      case Broken => return;
      case OtherEvent =>
      case EnvStep(time, step) =>
        if time > t {
          return;
        }
        cur := step;
    }
  }

  /** No broken line, and the environment steps in order of time. */
  predicate Ordered(log: seq<Line>) {
    && (forall i :: 0 <= i < |log| ==> !log[i].Broken?)
    && (forall i, j :: 0 <= i < j < |log| && log[i].EnvStep? && log[j].EnvStep? ==> log[i].time <= log[j].time)
  }

  /** Line `i` is the last environment step that began no later than `t`. */
  predicate LatestBy(log: seq<Line>, t: int, i: nat) {
    && i < |log| && log[i].EnvStep? && log[i].time <= t
    && forall j :: i < j < |log| && log[j].EnvStep? ==> log[j].time > t
  }

  lemma {:induction false} NoStepYet(log: seq<Line>, t: int, cur: int)
    requires forall i :: 0 <= i < |log| && log[i].EnvStep? ==> log[i].time > t
    ensures Scan(log, t, cur) == cur
  {
    if log != [] {
      NoStepYet(log[1..], t, cur);
    }
  }

  /** In an orderly log the reader finds the latest step begun by `t`. */
  lemma {:induction false} LatestStepWins(log: seq<Line>, t: int, cur: int, i: nat)
    requires Ordered(log) && LatestBy(log, t, i)
    ensures Scan(log, t, cur) == log[i].step
  {
    var rest := log[1..];
    var next := if log[0].EnvStep? then log[0].step else cur;
    if i == 0 {
      NoStepYet(rest, t, next);
    } else {
      assert log[i] == rest[i - 1];
      assert log[0].EnvStep? ==> log[0].time <= log[i].time;
      LatestStepWins(rest, t, next, i - 1);
    }
  }

  /** A line that no reader asking about `t` takes notice of. */
  predicate After(line: Line, t: int) {
    line.OtherEvent? || (line.EnvStep? && line.time > t)
  }

  /** What is appended after the fact never moves a call to another step. */
  lemma {:induction false} LaterLinesDoNotMatter(log: seq<Line>, more: seq<Line>, t: int, cur: int)
    requires forall i :: 0 <= i < |more| ==> After(more[i], t)
    ensures Scan(log + more, t, cur) == Scan(log, t, cur)
  {
    if log != [] {
      assert (log + more)[1..] == log[1..] + more;
      var next := if log[0].EnvStep? then log[0].step else cur;
      LaterLinesDoNotMatter(log[1..], more, t, next);
    } else if more != [] {
      assert log + more == more;
      assert more == [] + more;
      if more[0].OtherEvent? {
        assert more[1..] == [] + more[1..];
        LaterLinesDoNotMatter([], more[1..], t, cur);
      }
    }
  }

  // ----------------------------------------------------------- numbering

  /** The place of a call: its step, and its round within the step. */
  datatype Stamp = Stamp(step: int, round: nat)

  /** The reference numbering: the round of a call is the number of earlier calls in its step. */
  function Stamps(steps: seq<int>): (stamps: seq<Stamp>)
    ensures |stamps| == |steps|
    ensures forall i :: 0 <= i < |steps| ==> stamps[i] == Stamp(steps[i], multiset(steps[..i])[steps[i]])
  {
    seq(|steps|, i requires 0 <= i < |steps| => Stamp(steps[i], multiset(steps[..i])[steps[i]]))
  }

  /** Appending calls leaves the numbers of the earlier ones alone. */
  lemma StampsGrow(steps: seq<int>, more: seq<int>)
    ensures Stamps(steps + more)[..|steps|] == Stamps(steps)
  {
    forall i | 0 <= i < |steps| ensures Stamps(steps + more)[i] == Stamps(steps)[i] {
      assert (steps + more)[..i] == steps[..i];
    }
  }

  lemma StampsSnoc(steps: seq<int>, s: int)
    ensures Stamps(steps + [s]) == Stamps(steps) + [Stamp(s, multiset(steps)[s])]
  {
    StampsGrow(steps, [s]);
    assert (steps + [s])[..|steps|] == steps;
    assert Stamps(steps + [s]) == Stamps(steps + [s])[..|steps|] + [Stamps(steps + [s])[|steps|]];
  }

  /** Rounds per step are exactly 0 to k - 1. */
  lemma {:induction false} RoundsAreDense(steps: seq<int>, step: int, round: nat)
    ensures Stamp(step, round) in Stamps(steps) <==> round < multiset(steps)[step]
  {
    if steps != [] {
      var before, last := steps[..|steps| - 1], steps[|steps| - 1];
      assert steps == before + [last];
      StampsSnoc(before, last);
      var top := Stamp(last, multiset(before)[last]);
      assert Stamp(step, round) in Stamps(steps) <==> Stamp(step, round) in Stamps(before) || Stamp(step, round) == top;
      assert multiset(steps)[step] == multiset(before)[step] + (if step == last then 1 else 0);
      RoundsAreDense(before, step, round);
    }
  }

  /** No two calls share a number. */
  lemma StampsAreDistinct(steps: seq<int>, i: nat, j: nat)
    requires i < j < |steps|
    ensures Stamps(steps)[i] != Stamps(steps)[j]
  {
    if steps[i] == steps[j] {
      assert steps[..j] == steps[..i] + [steps[i]] + steps[i + 1..j];
    }
  }

  // --------------------------------------------------------------- spans

  datatype SpanName = LlmSpan | CodeSpan | HandleSpan | OtherSpan

  /** A finished span; `text` stands for the messages it carries. */
  datatype Span = Span(
    key: Option<(int, int)>, name: SpanName, hasInput: bool, hasTools: bool, hasSystem: bool,
    start: Option<int>, end: Option<int>, text: int)

  function StartOf(sp: Span): int {
    if sp.start.Some? then sp.start.value else 0
  }

  /** A missing or zero end reads as the start. */
  function EndOf(sp: Span): int {
    if sp.end.Some? && sp.end.value != 0 then sp.end.value else StartOf(sp)
  }

  /** A model call with its input messages: the spans both exporters number. */
  predicate Counted(sp: Span) {
    sp.name.LlmSpan? && sp.hasInput
  }

  /** The steps of the counted spans, in order of arrival. */
  function Steps(spans: seq<Span>, log: seq<Line>): seq<int> {
    if spans == [] then []
    else (if Counted(spans[0]) then [StepFor(log, StartOf(spans[0]))] else []) + Steps(spans[1..], log)
  }

  function SeenAfter(spans: seq<Span>, seen: set<(int, int)>): set<(int, int)> {
    if spans == [] then seen
    else SeenAfter(spans[1..], if spans[0].key.Some? then seen + {spans[0].key.value} else seen)
  }

  predicate Known(sp: Span, seen: set<(int, int)>) {
    sp.key.Some? && sp.key.value in seen
  }

  /** The spans that were not delivered before. */
  function Fresh(spans: seq<Span>, seen: set<(int, int)>): (kept: seq<Span>)
    ensures forall sp :: sp in kept ==> sp in spans
  {
    if spans == [] then []
    else if Known(spans[0], seen) then Fresh(spans[1..], seen)
    else [spans[0]] + Fresh(spans[1..], if spans[0].key.Some? then seen + {spans[0].key.value} else seen)
  }

  lemma Regroup<T>(a: seq<T>, b: seq<T>, c: seq<T>)
    ensures (a + b) + c == a + (b + c)
  {
  }

  lemma {:induction false} StepsJoin(a: seq<Span>, b: seq<Span>, log: seq<Line>)
    ensures Steps(a + b, log) == Steps(a, log) + Steps(b, log)
  {
    if a == [] {
      assert a + b == b;
    } else {
      assert (a + b)[1..] == a[1..] + b;
      StepsJoin(a[1..], b, log);
      var head := if Counted(a[0]) then [StepFor(log, StartOf(a[0]))] else [];
      var x, y := Steps(a[1..], log), Steps(b, log);
      assert head + (x + y) == (head + x) + y;
    }
  }

  lemma {:induction false} FreshJoin(a: seq<Span>, b: seq<Span>, seen: set<(int, int)>)
    ensures Fresh(a + b, seen) == Fresh(a, seen) + Fresh(b, SeenAfter(a, seen))
    ensures SeenAfter(a + b, seen) == SeenAfter(b, SeenAfter(a, seen))
  {
    if a == [] {
      assert a + b == b;
    } else {
      assert (a + b)[1..] == a[1..] + b;
      var next := if a[0].key.Some? then seen + {a[0].key.value} else seen;
      FreshJoin(a[1..], b, next);
      if Known(a[0], seen) {
        assert next == seen;
      } else {
        Regroup([a[0]], Fresh(a[1..], next), Fresh(b, SeenAfter(a[1..], next)));
      }
    }
  }

  /** No counted span is delivered after another span of the same key. */
  predicate OnceEach(spans: seq<Span>, seen: set<(int, int)>) {
    forall j :: 0 <= j < |spans| && Counted(spans[j]) && spans[j].key.Some? ==>
      && spans[j].key.value !in seen
      && forall i :: 0 <= i < j ==> spans[i].key != spans[j].key
  }

  lemma OnceEachStep(spans: seq<Span>, seen: set<(int, int)>)
    requires spans != []
    ensures var next := if spans[0].key.Some? then seen + {spans[0].key.value} else seen;
      OnceEach(spans, seen) <==> (Counted(spans[0]) ==> !Known(spans[0], seen)) && OnceEach(spans[1..], next)
  {
    var rest := spans[1..];
    var next := if spans[0].key.Some? then seen + {spans[0].key.value} else seen;
    if (Counted(spans[0]) ==> !Known(spans[0], seen)) && OnceEach(rest, next) {
      forall j | 0 <= j < |spans| && Counted(spans[j]) && spans[j].key.Some?
        ensures spans[j].key.value !in seen && forall i :: 0 <= i < j ==> spans[i].key != spans[j].key
      {
        if j > 0 {
          assert rest[j - 1] == spans[j];
          forall i | 0 <= i < j ensures spans[i].key != spans[j].key {
            if i > 0 { assert rest[i - 1] == spans[i]; }
          }
        }
      }
    }
    if OnceEach(spans, seen) {
      forall j | 0 <= j < |rest| && Counted(rest[j]) && rest[j].key.Some?
        ensures rest[j].key.value !in next && forall i :: 0 <= i < j ==> rest[i].key != rest[j].key
      {
        assert rest[j] == spans[j + 1];
        assert forall i :: 0 <= i < j ==> rest[i] == spans[i + 1];
      }
    }
  }

  /** Dropping repeats loses a counted span exactly when a counted span is a repeat. */
  lemma {:induction false} FreshSteps(spans: seq<Span>, seen: set<(int, int)>, log: seq<Line>)
    ensures |Steps(Fresh(spans, seen), log)| <= |Steps(spans, log)|
    ensures OnceEach(spans, seen) ==> Steps(Fresh(spans, seen), log) == Steps(spans, log)
    ensures !OnceEach(spans, seen) ==> |Steps(Fresh(spans, seen), log)| < |Steps(spans, log)|
  {
    if spans != [] {
      var next := if spans[0].key.Some? then seen + {spans[0].key.value} else seen;
      OnceEachStep(spans, seen);
      FreshSteps(spans[1..], next, log);
      if Known(spans[0], seen) {
        assert next == seen;
      } else {
        assert Fresh(spans, seen)[1..] == Fresh(spans[1..], next);
      }
    }
  }

  // ------------------------------------------------------------ lockstep

  /** One call of an exporter: the spans it is given and the log as it reads it then. */
  datatype Batch = Batch(spans: seq<Span>, log: seq<Line>)

  /** What the log gains after it is read begins after every counted span of the batch. */
  predicate Settled(b: Batch, final: seq<Line>) {
    && b.log <= final
    && forall sp, i :: sp in b.spans && Counted(sp) && |b.log| <= i < |final| ==> After(final[i], StartOf(sp))
  }

  function AllSpans(batches: seq<Batch>): seq<Span> {
    if batches == [] then [] else batches[0].spans + AllSpans(batches[1..])
  }

  /** The steps the message exporter numbers. */
  function MessageSteps(batches: seq<Batch>): seq<int> {
    if batches == [] then [] else Steps(batches[0].spans, batches[0].log) + MessageSteps(batches[1..])
  }

  /** The steps the event exporter numbers, which drops what it has seen. */
  function EventSteps(batches: seq<Batch>, seen: set<(int, int)>): seq<int> {
    if batches == [] then []
    else Steps(Fresh(batches[0].spans, seen), batches[0].log)
         + EventSteps(batches[1..], SeenAfter(batches[0].spans, seen))
  }

  lemma {:induction false} SettledSteps(spans: seq<Span>, log: seq<Line>, final: seq<Line>)
    requires Settled(Batch(spans, log), final)
    ensures Steps(spans, log) == Steps(spans, final)
  {
    if spans != [] {
      if Counted(spans[0]) {
        var more := final[|log|..];
        assert final == log + more;
        LaterLinesDoNotMatter(log, more, StartOf(spans[0]), 0);
      }
      SettledSteps(spans[1..], log, final);
    }
  }

  lemma {:induction false} MessageStepsWhole(batches: seq<Batch>, final: seq<Line>)
    requires forall b :: b in batches ==> Settled(b, final)
    ensures MessageSteps(batches) == Steps(AllSpans(batches), final)
  {
    if batches != [] {
      var b := batches[0];
      assert Settled(b, final);
      SettledSteps(b.spans, b.log, final);
      StepsJoin(b.spans, AllSpans(batches[1..]), final);
      MessageStepsWhole(batches[1..], final);
    }
  }

  lemma {:induction false} EventStepsWhole(batches: seq<Batch>, seen: set<(int, int)>, final: seq<Line>)
    requires forall b :: b in batches ==> Settled(b, final)
    ensures EventSteps(batches, seen) == Steps(Fresh(AllSpans(batches), seen), final)
  {
    if batches != [] {
      var b, rest := batches[0], AllSpans(batches[1..]);
      assert Settled(b, final);
      SettledSteps(Fresh(b.spans, seen), b.log, final);
      FreshJoin(b.spans, rest, seen);
      StepsJoin(Fresh(b.spans, seen), Fresh(rest, SeenAfter(b.spans, seen)), final);
      EventStepsWhole(batches[1..], SeenAfter(b.spans, seen), final);
    }
  }

  /**
  Lockstep: given the same spans, cut into batches in any way and with the log
  read at any time once the calls' own steps are in it, the two exporters give
  the same numbers exactly when no counted span is delivered again.
  */
  lemma LockstepIff(messages: seq<Batch>, events: seq<Batch>, final: seq<Line>)
    requires AllSpans(messages) == AllSpans(events)
    requires forall b :: b in messages + events ==> Settled(b, final)
    ensures Stamps(MessageSteps(messages)) == Stamps(EventSteps(events, {})) <==> OnceEach(AllSpans(messages), {})
  {
    assert forall b :: b in messages ==> b in messages + events;
    assert forall b :: b in events ==> b in messages + events;
    MessageStepsWhole(messages, final);
    EventStepsWhole(events, {}, final);
    FreshSteps(AllSpans(messages), {}, final);
  }

  /** A counted span that was delivered before. */
  predicate Repeated(spans: seq<Span>, i: nat)
    requires i < |spans|
  {
    Counted(spans[i]) && Known(spans[i], SeenAfter(spans[..i], {}))
  }

  predicate NoRepeatInStep(spans: seq<Span>, n: nat, log: seq<Line>, step: int)
    requires n <= |spans|
  {
    forall i :: 0 <= i < n && Repeated(spans, i) ==> StepFor(log, StartOf(spans[i])) != step
  }

  function OwnStep(sp: Span, log: seq<Line>): seq<int> {
    if Counted(sp) then [StepFor(log, StartOf(sp))] else []
  }

  /** One more span: its step counts, for the event exporter only if it is new. */
  lemma StepsSnoc(spans: seq<Span>, n: nat, log: seq<Line>)
    requires n < |spans|
    ensures Steps(spans[..n + 1], log) == Steps(spans[..n], log) + OwnStep(spans[n], log)
    ensures Steps(Fresh(spans[..n + 1], {}), log)
         == Steps(Fresh(spans[..n], {}), log)
            + if Known(spans[n], SeenAfter(spans[..n], {})) then [] else OwnStep(spans[n], log)
  {
    var sp, seen := spans[n], SeenAfter(spans[..n], {});
    assert spans[..n + 1] == spans[..n] + [sp];
    assert Steps([sp], log) == OwnStep(sp, log) by { assert [sp][1..] == []; }
    StepsJoin(spans[..n], [sp], log);
    FreshJoin(spans[..n], [sp], {});
    assert Fresh([sp], seen) == if Known(sp, seen) then [] else [sp] by { assert [sp][1..] == []; }
    StepsJoin(Fresh(spans[..n], {}), Fresh([sp], seen), log);
  }

  lemma NoRepeatSnoc(spans: seq<Span>, n: nat, log: seq<Line>, step: int)
    requires n < |spans|
    ensures NoRepeatInStep(spans, n + 1, log, step) <==>
            NoRepeatInStep(spans, n, log, step) && (Repeated(spans, n) ==> StepFor(log, StartOf(spans[n])) != step)
  {
  }

  /** How many calls of a step are numbered by each exporter among the first `n` spans. */
  function AllCount(spans: seq<Span>, n: nat, log: seq<Line>, step: int): nat
    requires n <= |spans|
  {
    if n == 0 then 0
    else AllCount(spans, n - 1, log, step)
         + if Counted(spans[n - 1]) && StepFor(log, StartOf(spans[n - 1])) == step then 1 else 0
  }

  function KeptCount(spans: seq<Span>, n: nat, log: seq<Line>, step: int): nat
    requires n <= |spans|
  {
    if n == 0 then 0
    else KeptCount(spans, n - 1, log, step)
         + if Counted(spans[n - 1]) && !Repeated(spans, n - 1) && StepFor(log, StartOf(spans[n - 1])) == step then 1 else 0
  }

  function CountOf(xs: seq<int>, x: int): nat { multiset(xs)[x] }

  lemma CountSnoc(xs: seq<int>, sp: Span, log: seq<Line>, step: int)
    ensures CountOf(xs + OwnStep(sp, log), step)
         == CountOf(xs, step) + if Counted(sp) && StepFor(log, StartOf(sp)) == step then 1 else 0
  {
  }

  lemma KeptSnoc(kept: seq<int>, more: seq<int>, sp: Span, known: bool, log: seq<Line>, step: int)
    requires more == kept + if known then [] else OwnStep(sp, log)
    ensures CountOf(more, step)
         == CountOf(kept, step) + if Counted(sp) && !known && StepFor(log, StartOf(sp)) == step then 1 else 0
  {
    if known { assert more == kept; } else { CountSnoc(kept, sp, log, step); }
  }

  lemma {:induction false} AllCounted(spans: seq<Span>, n: nat, log: seq<Line>, step: int)
    requires n <= |spans|
    ensures CountOf(Steps(spans[..n], log), step) == AllCount(spans, n, log, step)
  {
    if n == 0 {
      assert spans[..0] == [];
    } else {
      AllCounted(spans, n - 1, log, step);
      StepsSnoc(spans, n - 1, log);
      KeptSnoc(Steps(spans[..n - 1], log), Steps(spans[..n], log), spans[n - 1], false, log, step);
    }
  }

  lemma {:induction false} KeptCounted(spans: seq<Span>, n: nat, log: seq<Line>, step: int)
    requires n <= |spans|
    ensures CountOf(Steps(Fresh(spans[..n], {}), log), step) == KeptCount(spans, n, log, step)
  {
    if n == 0 {
      assert spans[..0] == [];
    } else {
      KeptCounted(spans, n - 1, log, step);
      StepsSnoc(spans, n - 1, log);
      KeptSnoc(Steps(Fresh(spans[..n - 1], {}), log), Steps(Fresh(spans[..n], {}), log), spans[n - 1],
               Known(spans[n - 1], SeenAfter(spans[..n - 1], {})), log, step);
    }
  }

  /** Dropping repeats lowers the count of a step exactly when a repeat was in it. */
  lemma {:induction false} DroppedCount(spans: seq<Span>, n: nat, log: seq<Line>, step: int)
    requires n <= |spans|
    ensures KeptCount(spans, n, log, step) <= AllCount(spans, n, log, step)
    ensures KeptCount(spans, n, log, step) == AllCount(spans, n, log, step) <==> NoRepeatInStep(spans, n, log, step)
  {
    if n > 0 {
      DroppedCount(spans, n - 1, log, step);
      NoRepeatSnoc(spans, n - 1, log, step);
    }
  }

  lemma PairOf(before: seq<int>, step: int, after: seq<int>)
    ensures Stamps(before + [step] + after)[|before|] == Stamp(step, multiset(before)[step])
  {
    assert (before + [step] + after)[..|before|] == before;
  }

  /** Where a call stands among the steps each exporter numbers, and the pair it gets there. */
  lemma PairsOf(spans: seq<Span>, j: nat, log: seq<Line>)
    requires j < |spans| && Counted(spans[j]) && !Known(spans[j], SeenAfter(spans[..j], {}))
    ensures var step, all, kept := StepFor(log, StartOf(spans[j])), Steps(spans[..j], log), Steps(Fresh(spans[..j], {}), log);
      && |all| < |Steps(spans, log)| && Stamps(Steps(spans, log))[|all|] == Stamp(step, multiset(all)[step])
      && |kept| < |Steps(Fresh(spans, {}), log)|
      && Stamps(Steps(Fresh(spans, {}), log))[|kept|] == Stamp(step, multiset(kept)[step])
  {
    var step, rest := StepFor(log, StartOf(spans[j])), spans[j + 1..];
    assert spans == spans[..j + 1] + rest;
    StepsSnoc(spans, j, log);
    StepsJoin(spans[..j + 1], rest, log);
    PairOf(Steps(spans[..j], log), step, Steps(rest, log));
    FreshJoin(spans[..j + 1], rest, {});
    var more := Fresh(rest, SeenAfter(spans[..j + 1], {}));
    StepsJoin(Fresh(spans[..j + 1], {}), more, log);
    PairOf(Steps(Fresh(spans[..j], {}), log), step, Steps(more, log));
  }

  /**
  The two exporters give a call the same pair exactly when no call of its step
  had been delivered again before it: a repeat shifts its own step only.
  */
  lemma PairAgreesIff(messages: seq<Batch>, events: seq<Batch>, final: seq<Line>, j: nat)
    requires AllSpans(messages) == AllSpans(events)
    requires forall b :: b in messages + events ==> Settled(b, final)
    requires var spans := AllSpans(messages);
      j < |spans| && Counted(spans[j]) && !Known(spans[j], SeenAfter(spans[..j], {}))
    ensures var spans := AllSpans(messages);
      var p, q := |Steps(spans[..j], final)|, |Steps(Fresh(spans[..j], {}), final)|;
      && p < |MessageSteps(messages)| && q < |EventSteps(events, {})|
      && (Stamps(MessageSteps(messages))[p] == Stamps(EventSteps(events, {}))[q]
          <==> NoRepeatInStep(spans, j, final, StepFor(final, StartOf(spans[j]))))
  {
    var spans := AllSpans(messages);
    assert forall b :: b in messages ==> b in messages + events;
    assert forall b :: b in events ==> b in messages + events;
    MessageStepsWhole(messages, final);
    EventStepsWhole(events, {}, final);
    PairsOf(spans, j, final);
    AllCounted(spans, j, final, StepFor(final, StartOf(spans[j])));
    KeptCounted(spans, j, final, StepFor(final, StartOf(spans[j])));
    DroppedCount(spans, j, final, StepFor(final, StartOf(spans[j])));
  }

  // ---------------------------------------------------- message exporter

  function Tally(rounds: map<int, nat>, step: int): nat {
    if step in rounds then rounds[step] else 0
  }

  /** The counters hold how many calls each step has had. */
  ghost predicate Tallies(rounds: map<int, nat>, steps: seq<int>) {
    forall s :: Tally(rounds, s) == multiset(steps)[s]
  }

  lemma TallyGrows(rounds: map<int, nat>, steps: seq<int>, step: int)
    requires Tallies(rounds, steps)
    ensures Tallies(rounds[step := Tally(rounds, step) + 1], steps + [step])
  {
    forall s ensures Tally(rounds[step := Tally(rounds, step) + 1], s) == multiset(steps + [step])[s] {
      assert Tally(rounds, s) == multiset(steps)[s];
    }
  }

  /** The number a counter gives to the next call is the reference numbering's, and new. */
  lemma CounterNumbersNext(rounds: map<int, nat>, steps: seq<int>, step: int)
    requires Tallies(rounds, steps)
    ensures Stamps(steps + [step]) == Stamps(steps) + [Stamp(step, Tally(rounds, step))]
    ensures Stamp(step, Tally(rounds, step)) !in Stamps(steps)
  {
    StampsSnoc(steps, step);
    RoundsAreDense(steps, step, Tally(rounds, step));
  }

  /** One message file per numbered call, with that call's text, and no other file. */
  ghost predicate FilesHold(files: map<Stamp, int>, steps: seq<int>, texts: seq<int>)
    requires |texts| == |steps|
  {
    && (forall i :: 0 <= i < |steps| ==> Stamps(steps)[i] in files && files[Stamps(steps)[i]] == texts[i])
    && (forall f :: f in files ==> f in Stamps(steps))
  }

  /** A new call's file is written beside the others and over none of them. */
  lemma FilesGrow(rounds: map<int, nat>, files: map<Stamp, int>, steps: seq<int>, texts: seq<int>, step: int, text: int)
    requires |texts| == |steps| && FilesHold(files, steps, texts) && Tallies(rounds, steps)
    ensures var stamp := Stamp(step, Tally(rounds, step));
      stamp !in files && FilesHold(files[stamp := text], steps + [step], texts + [text])
  {
    CounterNumbersNext(rounds, steps, step);
    var stamp, all := Stamp(step, Tally(rounds, step)), Stamps(steps + [step]);
    forall i | 0 <= i < |all| ensures all[i] in files[stamp := text] && files[stamp := text][all[i]] == (texts + [text])[i] {
      if i < |steps| {
        assert all[i] == Stamps(steps)[i];
      }
    }
  }

  /** The texts of the counted spans. */
  function Texts(spans: seq<Span>): seq<int> {
    if spans == [] then []
    else (if Counted(spans[0]) then [spans[0].text] else []) + Texts(spans[1..])
  }

  lemma {:induction false} TextsJoin(a: seq<Span>, b: seq<Span>)
    ensures Texts(a + b) == Texts(a) + Texts(b)
  {
    if a == [] {
      assert a + b == b;
    } else {
      assert (a + b)[1..] == a[1..] + b;
      TextsJoin(a[1..], b);
      var head := if Counted(a[0]) then [a[0].text] else [];
      var x, y := Texts(a[1..]), Texts(b);
      assert head + (x + y) == (head + x) + y;
    }
  }

  lemma OneSpan(sp: Span, log: seq<Line>)
    ensures Steps([sp], log) == if Counted(sp) then [StepFor(log, StartOf(sp))] else []
    ensures Texts([sp]) == if Counted(sp) then [sp.text] else []
  {
  }

  /** One step of the batch loop: what is written so far and what is still to come keep their join. */
  lemma NextSpan(spans: seq<Span>, k: nat, log: seq<Line>, steps: seq<int>, texts: seq<int>)
    requires k < |spans|
    ensures (steps + Steps([spans[k]], log)) + Steps(spans[k + 1..], log) == steps + Steps(spans[k..], log)
    ensures (texts + Texts([spans[k]])) + Texts(spans[k + 1..]) == texts + Texts(spans[k..])
  {
    assert spans[k..] == [spans[k]] + spans[k + 1..];
    StepsJoin([spans[k]], spans[k + 1..], log);
    TextsJoin([spans[k]], spans[k + 1..]);
    var a, b := Steps([spans[k]], log), Steps(spans[k + 1..], log);
    assert (steps + a) + b == steps + (a + b);
    var c, d := Texts([spans[k]]), Texts(spans[k + 1..]);
    assert (texts + c) + d == texts + (c + d);
  }

  /** The pair of the next model call: its step, and how many calls of the step came before. */
  ghost function NextPair(steps: seq<int>, sp: Span, log: seq<Line>): Stamp {
    var step := StepFor(log, if sp.start.Some? then sp.start.value else 0);
    Stamp(step, multiset(steps)[step])
  }

  /** The counters and the files are those of the calls written. */
  ghost predicate Written(rounds: map<int, nat>, files: map<Stamp, int>, steps: seq<int>, texts: seq<int>) {
    Tallies(rounds, steps) && |texts| == |steps| && FilesHold(files, steps, texts)
  }

  /** A model call takes the next number of its step, and its file stands beside the others. */
  lemma CallWritten(rounds: map<int, nat>, files: map<Stamp, int>, steps: seq<int>, texts: seq<int>, sp: Span, log: seq<Line>)
    requires Written(rounds, files, steps, texts) && Counted(sp)
    ensures var step := StepFor(log, StartOf(sp)); var pair := Stamp(step, Tally(rounds, step));
      && pair == NextPair(steps, sp, log) && pair !in files
      && Written(rounds[step := Tally(rounds, step) + 1], files[pair := sp.text],
                 steps + Steps([sp], log), texts + Texts([sp]))
  {
    var step := StepFor(log, StartOf(sp));
    FilesGrow(rounds, files, steps, texts, step, sp.text);
    TallyGrows(rounds, steps, step);
    OneSpan(sp, log);
  }

  /**
  Writes each call's messages to a file named by its number. `steps` and `texts`
  record the calls written so far; the directory may start with placeholders.
  */
  class MessageExporter {
    var rounds: map<int, nat>
    var cleared: bool
    var files: map<Stamp, int>
    ghost var steps: seq<int>
    ghost var texts: seq<int>

    ghost predicate Valid()
      reads this
    {
      && Written(rounds, if cleared then files else map[], steps, texts)
      && (!cleared ==> steps == [])
    }

    constructor (placeholders: map<Stamp, int>)
      ensures Valid() && steps == [] && texts == [] && files == placeholders && !cleared
    {
      rounds, cleared, files, steps, texts := map[], false, placeholders, [], [];
    }

    /** Removes the placeholders before the first call is written. */
    method ClearOnce()
      requires Valid()
      modifies this
      ensures Valid() && cleared && steps == old(steps) && texts == old(texts)
      ensures old(cleared) ==> files == old(files)
    {
      if !cleared {
        files := map[];
        cleared := true;
      }
    }

    /** Numbers and writes one span, if it is a counted one. */
    method Take(sp: Span, log: seq<Line>)
      requires Valid() && cleared
      modifies this
      ensures Valid() && cleared
      ensures steps == old(steps) + Steps([sp], log)
      ensures texts == old(texts) + Texts([sp])
      ensures files == if sp.name.LlmSpan? && sp.hasInput then old(files)[NextPair(old(steps), sp, log) := sp.text] else old(files)
    {
      if Counted(sp) {
        CallWritten(rounds, files, steps, texts, sp, log);
        var step := FindStep(log, StartOf(sp));
        var round := Tally(rounds, step);
        rounds := rounds[step := round + 1];
        files := files[Stamp(step, round) := sp.text];
        steps := steps + Steps([sp], log);
        texts := texts + Texts([sp]);
      } else {
        OneSpan(sp, log);
      }
    }

    /** Numbers and writes the counted spans of a batch, in order. */
    method Export(spans: seq<Span>, log: seq<Line>)
      requires Valid()
      modifies this
      ensures Valid() && cleared
      ensures steps == old(steps) + Steps(spans, log)
      ensures texts == old(texts) + Texts(spans)
    {
      ClearOnce();
      for k := 0 to |spans|
        invariant Valid() && cleared
        invariant steps + Steps(spans[k..], log) == old(steps) + Steps(spans, log)
        invariant texts + Texts(spans[k..]) == old(texts) + Texts(spans)
      {
        NextSpan(spans, k, log, steps, texts);
        Take(spans[k], log);
      }
    }
  }
}
