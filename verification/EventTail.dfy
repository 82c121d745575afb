/**
The viewer's incremental tailer of an event log, and the statistics it folds
the events into.
*/
module EventTail {
  import opened Wrappers
  import opened Rhae

  type Byte = int

  const NEWLINE: Byte := 10

  // ------------------------------------------------------------ lines

  /** `data.split(b"\n")`: one more part than there are newlines. */
  function Split(data: seq<Byte>): (parts: seq<seq<Byte>>)
    ensures parts != []
  {
    if data == [] then [[]] else
      var rest := Split(data[1..]);
      if data[0] == NEWLINE then [[]] + rest else [[data[0]] + rest[0]] + rest[1..]
  }

  /** The complete lines of some bytes, and the partial line after them. */
  function Complete(data: seq<Byte>): seq<seq<Byte>> { Split(data)[..|Split(data)| - 1] }

  function Partial(data: seq<Byte>): seq<Byte> { Split(data)[|Split(data)| - 1] }

  /** Splitting with one more byte in front, on the parts of the rest. */
  function Prepend(c: Byte, parts: seq<seq<Byte>>): seq<seq<Byte>>
    requires parts != []
  {
    if c == NEWLINE then [[]] + parts else [[c] + parts[0]] + parts[1..]
  }

  lemma SplitCons(c: Byte, rest: seq<Byte>)
    ensures Split([c] + rest) == Prepend(c, Split(rest))
  {
    assert ([c] + rest)[1..] == rest;
  }

  lemma PrependAppend(c: Byte, x: seq<seq<Byte>>, y: seq<seq<Byte>>)
    requires |x| > 1 || (c == NEWLINE && x != [])
    ensures var p := Prepend(c, x);
            p[|p| - 1] == x[|x| - 1] && (x[..|x| - 1] + y != [] ==> Prepend(c, x[..|x| - 1] + y) == p[..|p| - 1] + y)
  {
  }

  lemma {:induction false} SplitAppend(a: seq<Byte>, b: seq<Byte>)
    ensures Split(a + b) == Complete(a) + Split(Partial(a) + b)
    decreases |a|
  {
    if a == [] {
      assert a + b == b && Partial(a) + b == b;
    } else {
      var c, t := a[0], a[1..];
      var x := Split(t);
      assert a == [c] + t;
      SplitCons(c, t);
      assert a + b == [c] + (t + b);
      SplitCons(c, t + b);
      SplitAppend(t, b);
      if |x| == 1 && c != NEWLINE {
        SplitCons(c, x[0] + b);
        assert [c] + (x[0] + b) == [c] + x[0] + b;
        assert Complete(t) == [] && Complete(a) == [];
      } else {
        PrependAppend(c, x, Split(Partial(t) + b));
      }
    }
  }

  /** Carrying the partial line over loses nothing: splitting chunk by chunk
      gives the lines of the whole. */
  lemma ChunkedSplit(a: seq<Byte>, b: seq<Byte>)
    ensures Complete(a + b) == Complete(a) + Complete(Partial(a) + b)
    ensures Partial(a + b) == Partial(Partial(a) + b)
  {
    SplitAppend(a, b);
  }

  /** The parts with a newline between each two. */
  function Join(parts: seq<seq<Byte>>): seq<Byte>
    requires parts != []
  {
    if |parts| == 1 then parts[0] else parts[0] + [NEWLINE] + Join(parts[1..])
  }

  /** The parts are the data cut at every newline, byte 10, and nowhere else. */
  lemma {:induction false} SplitCutsAtNewlines(data: seq<Byte>)
    ensures Join(Split(data)) == data
    ensures forall part :: part in Split(data) ==> 10 !in part
  {
    if data != [] {
      var rest := Split(data[1..]);
      SplitCutsAtNewlines(data[1..]);
      if data[0] == NEWLINE {
        assert ([[]] + rest)[1..] == rest;
        assert [] + [NEWLINE] + Join(rest) == data;
      } else {
        var parts := [[data[0]] + rest[0]] + rest[1..];
        assert parts[1..] == rest[1..];
        assert Join(parts) == [data[0]] + Join(rest);
      }
    }
  }

  // ------------------------------------------------------------ statistics

  datatype Tokens = Tokens(input: int, output: int, cache: int, cacheWrite: int)

  /** A field as `int` reads it: a number, or a value on which it raises a ValueError. */
  datatype Field = Number(value: int) | Bad

  datatype Event =
    | LlmCall(key: string, input: Field, output: Field, reasoning: Field, cacheRead: Field,
              toolCalls: Field, codeBlocks: Field, cacheWrite: Field)
    | ReplExecute(success: bool)
    | RoundComplete
    | StepComplete
    | LevelScored(index: Option<nat>, ai: int, baseline: int, recorded: real)
    | SolverStart(baselines: seq<int>)
    | EnvStep(step: Field, completed: Field, action: bool)
    | OtherEvent

  datatype Stats = Stats(
    llmCalls: nat, input: int, output: int, reasoning: int, cacheRead: int, toolCalls: int, codeBlocks: int,
    replTotal: nat, replSuccess: nat, rounds: nat, steps: nat,
    step: int, level: int, actionsThisLevel: nat,
    models: map<string, Tokens>, baselines: seq<int>, scores: seq<real>, aiActions: seq<int>)

  const NO_STATS: Stats := Stats(0, 0, 0, 0, 0, 0, 0, 0, 0, 0, 0, 0, 0, 0, map[], [], [], [])

  /** `x or y` on numbers: a missing or zero value counts as absent. */
  function Or(x: int, y: int): int { if x != 0 then x else y }

  function Padded<T>(xs: seq<T>, n: nat, pad: T): (r: seq<T>)
    ensures |r| == if |xs| > n then |xs| else n + 1
  {
    if |xs| > n then xs else xs + seq(n + 1 - |xs|, i => pad)
  }

  function TokensOf(models: map<string, Tokens>, key: string): Tokens {
    if key in models then models[key] else Tokens(0, 0, 0, 0)
  }

  function AddTokens(t: Tokens, more: Tokens): Tokens {
    Tokens(t.input + more.input, t.output + more.output, t.cache + more.cache, t.cacheWrite + more.cacheWrite)
  }

  /** A model call, counted field by field up to the first one that raises. */
  function CountCall(s: Stats, e: Event): Stats
    requires e.LlmCall?
  {
    if e.input.Bad? || e.output.Bad? then s
    else CountCache(s.(llmCalls := s.llmCalls + 1, input := s.input + e.input.value, output := s.output + e.output.value), e)
  }

  function CountCache(s: Stats, e: Event): Stats
    requires e.LlmCall? && e.input.Number? && e.output.Number?
  {
    if e.reasoning.Bad? then s
    else if e.cacheRead.Bad? then s.(reasoning := s.reasoning + e.reasoning.value)
    else CountTools(s.(reasoning := s.reasoning + e.reasoning.value, cacheRead := s.cacheRead + e.cacheRead.value), e)
  }

  function CountTools(s: Stats, e: Event): Stats
    requires e.LlmCall? && e.input.Number? && e.output.Number? && e.cacheRead.Number?
  {
    if e.toolCalls.Bad? then s
    else if e.codeBlocks.Bad? then s.(toolCalls := s.toolCalls + e.toolCalls.value)
    else s.(toolCalls := s.toolCalls + e.toolCalls.value, codeBlocks := s.codeBlocks + e.codeBlocks.value,
            models := s.models[e.key := AddTokens(TokensOf(s.models, e.key), OwnTokens(e))])
  }

  /** What a call that raises nowhere before adds to its model. */
  function OwnTokens(e: Event): Tokens
    requires e.LlmCall? && e.input.Number? && e.output.Number? && e.cacheRead.Number?
  {
    Tokens(e.input.value, e.output.value, e.cacheRead.value, if e.cacheWrite.Bad? then 0 else e.cacheWrite.value)
  }

  /** A step of the game: a bad step changes nothing, a bad level only takes over the step. */
  function CountStep(s: Stats, e: Event): Stats
    requires e.EnvStep?
  {
    if e.step.Bad? then s
    else
      var s1 := s.(step := Or(e.step.value, s.step));
      if e.completed.Bad? then s1
      else
        var newLevel := Or(e.completed.value, s.level);
        s1.(level := newLevel,
            actionsThisLevel := if newLevel > s.level then 0 else s.actionsThisLevel + if e.action then 1 else 0)
  }

  /** What one event does to the statistics. */
  function Apply(s: Stats, e: Event): Stats {
    match e
    case LlmCall(_, _, _, _, _, _, _, _) => CountCall(s, e)
    case ReplExecute(success) =>
      s.(replTotal := s.replTotal + 1, replSuccess := s.replSuccess + if success then 1 else 0)
    case RoundComplete => s.(rounds := s.rounds + 1)
    case StepComplete => s.(steps := s.steps + 1)
    case LevelScored(index, ai, baseline, recorded) =>
      var level := if index.Some? then index.value else |s.scores|;
      var score := if baseline != 0 && ai != 0 then LevelScore(baseline, ai) else recorded;
      s.(scores := Padded(s.scores, level, 0.0)[level := score],
         aiActions := Padded(s.aiActions, level, 0)[level := ai])
    case SolverStart(baselines) => if baselines == [] then s else s.(baselines := baselines)
    case EnvStep(_, _, _) => CountStep(s, e)
    case OtherEvent => s
  }

  function Next(decode: seq<Byte> -> Option<Event>, s: Stats, line: seq<Byte>): Stats {
    if decode(line).Some? then Apply(s, decode(line).value) else s
  }

  /** Lines folded one by one; blank and undecodable ones are skipped. */
  function Fold(decode: seq<Byte> -> Option<Event>, s: Stats, lines: seq<seq<Byte>>): Stats
    decreases |lines|
  {
    if lines == [] then s else
      Fold(decode, Next(decode, s, lines[0]), lines[1..])
  }

  lemma {:induction false} FoldAppend(decode: seq<Byte> -> Option<Event>, s: Stats, a: seq<seq<Byte>>, b: seq<seq<Byte>>)
    ensures Fold(decode, s, a + b) == Fold(decode, Fold(decode, s, a), b)
    decreases |a|
  {
    if a == [] {
      assert a + b == b;
    } else {
      assert (a + b)[1..] == a[1..] + b;
      FoldAppend(decode, Next(decode, s, a[0]), a[1..], b);
    }
  }

  // ------------------------------------------------------------ conservation

  ghost function SumOver(models: map<string, Tokens>, part: Tokens -> int): int
    decreases |models|
  {
    if models == map[] then 0 else
      var k :| k in models;
      part(models[k]) + SumOver(models - {k}, part)
  }

  lemma {:induction false} SumSplit(models: map<string, Tokens>, part: Tokens -> int, k: string)
    requires k in models
    ensures SumOver(models, part) == part(models[k]) + SumOver(models - {k}, part)
    decreases |models|
  {
    var j :| j in models && SumOver(models, part) == part(models[j]) + SumOver(models - {j}, part);
    if j != k {
      SumSplit(models - {j}, part, k);
      SumSplit(models - {k}, part, j);
      assert models - {j} - {k} == models - {k} - {j};
    }
  }

  lemma SumUpdate(models: map<string, Tokens>, part: Tokens -> int, k: string, v: Tokens)
    ensures SumOver(models[k := v], part) == SumOver(models - {k}, part) + part(v)
    ensures k in models ==> SumOver(models[k := v], part) == SumOver(models, part) - part(models[k]) + part(v)
    ensures k !in models ==> SumOver(models[k := v], part) == SumOver(models, part) + part(v)
  {
    SumSplit(models[k := v], part, k);
    assert models[k := v] - {k} == models - {k};
    if k in models { SumSplit(models, part, k); } else { assert models - {k} == models; }
  }

  datatype Kind = InputTokens | OutputTokens | CacheTokens

  function Total(s: Stats, kind: Kind): int {
    match kind
    case InputTokens => s.input
    case OutputTokens => s.output
    case CacheTokens => s.cacheRead
  }

  function Of(t: Tokens, kind: Kind): int {
    match kind
    case InputTokens => t.input
    case OutputTokens => t.output
    case CacheTokens => t.cache
  }

  /** Tokens of a kind counted in the totals that no model accounts for. */
  ghost function Gap(s: Stats, kind: Kind): int {
    Total(s, kind) - SumOver(s.models, (t: Tokens) => Of(t, kind))
  }

  /** What a call adds to the totals and, raising before its model's own tokens, to no model. */
  function Lost(e: Event, kind: Kind): int {
    if !e.LlmCall? || e.input.Bad? || e.output.Bad? then 0
    else if e.reasoning.Bad? || e.cacheRead.Bad? then
      match kind
      case InputTokens => e.input.value
      case OutputTokens => e.output.value
      case CacheTokens => 0
    else if e.toolCalls.Bad? || e.codeBlocks.Bad? then Of(OwnTokens(e), kind)
    else 0
  }

  function LostAt(decode: seq<Byte> -> Option<Event>, line: seq<Byte>, kind: Kind): int {
    if decode(line).Some? then Lost(decode(line).value, kind) else 0
  }

  /** What a log loses, line by line. */
  function LostIn(decode: seq<Byte> -> Option<Event>, lines: seq<seq<Byte>>, kind: Kind): int
    decreases |lines|
  {
    if lines == [] then 0 else LostAt(decode, lines[0], kind) + LostIn(decode, lines[1..], kind)
  }

  lemma ApplyGap(s: Stats, e: Event, kind: Kind)
    ensures Gap(Apply(s, e), kind) == Gap(s, kind) + Lost(e, kind)
  {
    if e.LlmCall? && Apply(s, e).models != s.models {
      SumUpdate(s.models, (t: Tokens) => Of(t, kind), e.key, AddTokens(TokensOf(s.models, e.key), OwnTokens(e)));
    }
  }

  lemma NextGap(decode: seq<Byte> -> Option<Event>, s: Stats, line: seq<Byte>, kind: Kind)
    ensures Gap(Next(decode, s, line), kind) == Gap(s, kind) + LostAt(decode, line, kind)
  {
    if decode(line).Some? { ApplyGap(s, decode(line).value, kind); }
  }

  /** Whatever the log holds: the totals exceed the sums over the models by exactly what
      the calls that raised midway had already added. */
  lemma {:induction false} FoldGap(decode: seq<Byte> -> Option<Event>, s: Stats, lines: seq<seq<Byte>>, kind: Kind)
    ensures Gap(Fold(decode, s, lines), kind) == Gap(s, kind) + LostIn(decode, lines, kind)
    decreases |lines|
  {
    if lines != [] {
      NextGap(decode, s, lines[0], kind);
      FoldGap(decode, Next(decode, s, lines[0]), lines[1..], kind);
    }
  }

  /** The per-model tokens add up to the global counts. */
  ghost predicate Balanced(s: Stats) {
    forall kind: Kind :: Gap(s, kind) == 0
  }

  /** A call that raises midway with something already added. */
  predicate StopsMidway(e: Event) {
    && e.LlmCall? && e.input.Number? && e.output.Number?
    && (e.reasoning.Bad? || e.cacheRead.Bad? || e.toolCalls.Bad? || e.codeBlocks.Bad?)
    && (e.input.value != 0 || e.output.value != 0
        || (e.reasoning.Number? && e.cacheRead.Number? && e.cacheRead.value != 0))
  }

  predicate StopsAt(decode: seq<Byte> -> Option<Event>, line: seq<Byte>) {
    decode(line).Some? && StopsMidway(decode(line).value)
  }

  predicate NotNegative(f: Field) { f.Number? ==> f.value >= 0 }

  /** The line holds no negative amount of tokens. */
  predicate NoNegative(decode: seq<Byte> -> Option<Event>, line: seq<Byte>) {
    decode(line).Some? && decode(line).value.LlmCall? ==>
      var e := decode(line).value; NotNegative(e.input) && NotNegative(e.output) && NotNegative(e.cacheRead)
  }

  lemma LostAtIff(decode: seq<Byte> -> Option<Event>, line: seq<Byte>)
    requires NoNegative(decode, line)
    ensures forall kind: Kind :: LostAt(decode, line, kind) >= 0
    ensures (forall kind: Kind :: LostAt(decode, line, kind) == 0) <==> !StopsAt(decode, line)
  {
    if StopsAt(decode, line) {
      assert LostAt(decode, line, InputTokens) != 0 || LostAt(decode, line, OutputTokens) != 0 || LostAt(decode, line, CacheTokens) != 0;
    }
  }

  predicate NothingLost(decode: seq<Byte> -> Option<Event>, lines: seq<seq<Byte>>) {
    forall kind: Kind :: LostIn(decode, lines, kind) == 0
  }

  predicate NoneStops(decode: seq<Byte> -> Option<Event>, lines: seq<seq<Byte>>) {
    forall i :: 0 <= i < |lines| ==> !StopsAt(decode, lines[i])
  }

  lemma {:induction false} LostSoFar(decode: seq<Byte> -> Option<Event>, lines: seq<seq<Byte>>, i: nat, kind: Kind)
    requires forall j :: 0 <= j < |lines| ==> NoNegative(decode, lines[j])
    ensures LostIn(decode, lines, kind) >= 0
    ensures i < |lines| ==> LostIn(decode, lines, kind) >= LostAt(decode, lines[i], kind) >= 0
    decreases |lines|
  {
    if lines != [] {
      LostAtIff(decode, lines[0]);
      LostSoFar(decode, lines[1..], if i > 0 then i - 1 else 0, kind);
    }
  }

  lemma {:induction false} NoneLost(decode: seq<Byte> -> Option<Event>, lines: seq<seq<Byte>>, kind: Kind)
    requires forall j :: 0 <= j < |lines| ==> LostAt(decode, lines[j], kind) == 0
    ensures LostIn(decode, lines, kind) == 0
    decreases |lines|
  {
    if lines != [] { NoneLost(decode, lines[1..], kind); }
  }

  lemma LostInIff(decode: seq<Byte> -> Option<Event>, lines: seq<seq<Byte>>)
    requires forall i :: 0 <= i < |lines| ==> NoNegative(decode, lines[i])
    ensures NothingLost(decode, lines) <==> NoneStops(decode, lines)
  {
    if NothingLost(decode, lines) {
      forall i | 0 <= i < |lines| ensures !StopsAt(decode, lines[i]) {
        LostAtIff(decode, lines[i]);
        forall kind: Kind ensures LostAt(decode, lines[i], kind) == 0 {
          LostSoFar(decode, lines, i, kind);
        }
      }
    }
    if NoneStops(decode, lines) {
      forall kind: Kind ensures LostIn(decode, lines, kind) == 0 {
        forall i | 0 <= i < |lines| ensures LostAt(decode, lines[i], kind) == 0 { LostAtIff(decode, lines[i]); }
        NoneLost(decode, lines, kind);
      }
    }
  }

  /** A log without negative amounts keeps the accounts balanced exactly when none of
      its calls raises midway with something already added. */
  lemma FoldBalancedIff(decode: seq<Byte> -> Option<Event>, s: Stats, lines: seq<seq<Byte>>)
    requires Balanced(s) && forall i :: 0 <= i < |lines| ==> NoNegative(decode, lines[i])
    ensures Balanced(Fold(decode, s, lines)) <==> NoneStops(decode, lines)
  {
    LostInIff(decode, lines);
    var t := Fold(decode, s, lines);
    forall kind: Kind ensures Gap(t, kind) == LostIn(decode, lines, kind) {
      FoldGap(decode, s, lines, kind);
    }
    if Balanced(t) {
      forall kind: Kind ensures LostIn(decode, lines, kind) == 0 {
        assert Gap(t, kind) == 0;
      }
      assert NothingLost(decode, lines);
    }
    if NothingLost(decode, lines) {
      forall kind: Kind ensures Gap(t, kind) == 0 {
        assert LostIn(decode, lines, kind) == 0;
      }
    }
  }

  /** The call `{"event": "llm_call", "input_tokens": 5, "reasoning_tokens": "x"}` leaves
      five tokens in the totals that no model has, when nothing was counted before. */
  lemma MidwayCallUnbalances(s: Stats, e: Event)
    requires s.models == map[] && s.input == s.output == s.cacheRead == 0
    requires e == LlmCall("", Number(5), Number(0), Bad, Number(0), Number(0), Number(0), Number(0))
    ensures Balanced(s) && Apply(s, e).input == 5 && Apply(s, e).models == map[] && Gap(Apply(s, e), InputTokens) == 5
  {
    ApplyGap(s, e, InputTokens);
  }

  // ------------------------------------------------------------ what the counters count

  /** Everything the statistics count, in all and for one model. */
  datatype Counter =
    | Calls | InputSum | OutputSum | ReasoningSum | CacheReadSum | ToolCallSum | CodeBlockSum
    | Executions | Successes | Rounds | Steps
    | ModelInput(key: string) | ModelOutput(key: string) | ModelCache(key: string) | ModelCacheWrite(key: string)

  function Value(s: Stats, c: Counter): int {
    match c
    case Calls => s.llmCalls
    case InputSum => s.input
    case OutputSum => s.output
    case ReasoningSum => s.reasoning
    case CacheReadSum => s.cacheRead
    case ToolCallSum => s.toolCalls
    case CodeBlockSum => s.codeBlocks
    case Executions => s.replTotal
    case Successes => s.replSuccess
    case Rounds => s.rounds
    case Steps => s.steps
    case ModelInput(key) => TokensOf(s.models, key).input
    case ModelOutput(key) => TokensOf(s.models, key).output
    case ModelCache(key) => TokensOf(s.models, key).cache
    case ModelCacheWrite(key) => TokensOf(s.models, key).cacheWrite
  }

  /** The amount is added when it and every field read before it are numbers. */
  function If(ok: bool, f: Field): int {
    if ok && f.Number? then f.value else 0
  }

  /** What a model call amounts to. Its fields are read in this order: input and output,
      reasoning, cache reads, tool calls, code blocks, the model's own tokens, cache writes. */
  function CallAmount(e: Event, c: Counter): int
    requires e.LlmCall?
  {
    var counted := e.input.Number? && e.output.Number?;
    var cached := counted && e.reasoning.Number? && e.cacheRead.Number?;
    var own := cached && e.toolCalls.Number? && e.codeBlocks.Number?;
    match c
    case Calls => if counted then 1 else 0
    case InputSum => If(counted, e.input)
    case OutputSum => If(counted, e.output)
    case ReasoningSum => If(counted, e.reasoning)
    case CacheReadSum => If(cached, e.cacheRead)
    case ToolCallSum => If(cached, e.toolCalls)
    case CodeBlockSum => If(cached && e.toolCalls.Number?, e.codeBlocks)
    case ModelInput(key) => If(own && e.key == key, e.input)
    case ModelOutput(key) => If(own && e.key == key, e.output)
    case ModelCache(key) => If(own && e.key == key, e.cacheRead)
    case ModelCacheWrite(key) => If(own && e.key == key, e.cacheWrite)
    case _ => 0
  }

  /** What one event amounts to. */
  function Amount(e: Event, c: Counter): int {
    if e.LlmCall? then CallAmount(e, c)
    else match c
      case Executions => if e.ReplExecute? then 1 else 0
      case Successes => if e.ReplExecute? && e.success then 1 else 0
      case Rounds => if e.RoundComplete? then 1 else 0
      case Steps => if e.StepComplete? then 1 else 0
      case _ => 0
  }

  function AmountAt(decode: seq<Byte> -> Option<Event>, line: seq<Byte>, c: Counter): int {
    if decode(line).Some? then Amount(decode(line).value, c) else 0
  }

  function AmountIn(decode: seq<Byte> -> Option<Event>, lines: seq<seq<Byte>>, c: Counter): int
    decreases |lines|
  {
    if lines == [] then 0 else AmountAt(decode, lines[0], c) + AmountIn(decode, lines[1..], c)
  }

  lemma CallCounts(s: Stats, e: Event, c: Counter)
    requires e.LlmCall?
    ensures Value(CountCall(s, e), c) == Value(s, c) + CallAmount(e, c)
  {
  }

  lemma ApplyCounts(s: Stats, e: Event, c: Counter)
    ensures Value(Apply(s, e), c) == Value(s, c) + Amount(e, c)
  {
    if e.LlmCall? { CallCounts(s, e, c); }
  }

  lemma NextCounts(decode: seq<Byte> -> Option<Event>, s: Stats, line: seq<Byte>, c: Counter)
    ensures Value(Next(decode, s, line), c) == Value(s, c) + AmountAt(decode, line, c)
  {
    if decode(line).Some? { ApplyCounts(s, decode(line).value, c); }
  }

  /** Every counter is what it was plus what the log's events amount to, one by one. */
  lemma {:induction false} FoldCounts(decode: seq<Byte> -> Option<Event>, s: Stats, lines: seq<seq<Byte>>, c: Counter)
    ensures Value(Fold(decode, s, lines), c) == Value(s, c) + AmountIn(decode, lines, c)
    decreases |lines|
  {
    if lines != [] {
      NextCounts(decode, s, lines[0], c);
      FoldCounts(decode, Next(decode, s, lines[0]), lines[1..], c);
    }
  }

  /** The line is an action of the game; its level, when it reports one that is not zero. */
  predicate IsAction(decode: seq<Byte> -> Option<Event>, line: seq<Byte>) {
    decode(line).Some? && decode(line).value.EnvStep?
    && decode(line).value.step.Number? && decode(line).value.completed.Number? && decode(line).value.action
  }

  function ActionsIn(decode: seq<Byte> -> Option<Event>, lines: seq<seq<Byte>>): nat
    decreases |lines|
  {
    if lines == [] then 0 else (if IsAction(decode, lines[0]) then 1 else 0) + ActionsIn(decode, lines[1..])
  }

  /** The line reports a level above the one reached. */
  predicate RaisesLevel(decode: seq<Byte> -> Option<Event>, s: Stats, line: seq<Byte>) {
    decode(line).Some? && decode(line).value.EnvStep?
    && decode(line).value.step.Number? && decode(line).value.completed.Number? && decode(line).value.completed.value != 0
    && decode(line).value.completed.value > s.level
  }

  /** No line raises the level. */
  predicate StaysOnLevel(decode: seq<Byte> -> Option<Event>, s: Stats, lines: seq<seq<Byte>>)
    decreases |lines|
  {
    lines == [] || (!RaisesLevel(decode, s, lines[0]) && StaysOnLevel(decode, Next(decode, s, lines[0]), lines[1..]))
  }

  /** While no line raises the level, each action counts towards it. */
  lemma {:induction false} ActionsAddUp(decode: seq<Byte> -> Option<Event>, s: Stats, lines: seq<seq<Byte>>)
    requires StaysOnLevel(decode, s, lines)
    ensures Fold(decode, s, lines).actionsThisLevel == s.actionsThisLevel + ActionsIn(decode, lines)
    decreases |lines|
  {
    if lines != [] {
      ActionCounts(decode, s, lines[0]);
      ActionsAddUp(decode, Next(decode, s, lines[0]), lines[1..]);
    }
  }

  lemma ActionCounts(decode: seq<Byte> -> Option<Event>, s: Stats, line: seq<Byte>)
    ensures Next(decode, s, line).actionsThisLevel
         == if RaisesLevel(decode, s, line) then 0 else s.actionsThisLevel + if IsAction(decode, line) then 1 else 0
  {
  }

  /** Step and level are the last ones reported that are numbers and not zero; a level is
      taken over only if the step beside it is a number. */
  lemma LastReported(s: Stats, e: Event)
    ensures Apply(s, e).step == if e.EnvStep? && e.step.Number? && e.step.value != 0 then e.step.value else s.step
    ensures Apply(s, e).level ==
            if e.EnvStep? && e.step.Number? && e.completed.Number? && e.completed.value != 0 then e.completed.value else s.level
    ensures Apply(s, e).baselines == if e.SolverStart? && e.baselines != [] then e.baselines else s.baselines
  {
  }

  /** A level score goes to its level, or to the next one when it names none; levels in
      between are filled with zeros, and every other level keeps its own. */
  lemma ScoreStored(s: Stats, e: Event)
    requires Orderly(s)
    ensures !e.LevelScored? ==> Apply(s, e).scores == s.scores && Apply(s, e).aiActions == s.aiActions
    ensures e.LevelScored? ==>
      var r, at := Apply(s, e), if e.index.Some? then e.index.value else |s.scores|;
      && |r.scores| == |r.aiActions| == (if at < |s.scores| then |s.scores| else at + 1)
      && r.aiActions[at] == e.ai
      && r.scores[at] == (if e.baseline != 0 && e.ai != 0 then LevelScore(e.baseline, e.ai) else e.recorded)
      && forall i :: 0 <= i < |r.scores| && i != at ==>
           r.scores[i] == (if i < |s.scores| then s.scores[i] else 0.0)
           && r.aiActions[i] == (if i < |s.scores| then s.aiActions[i] else 0)
  {
  }

  /** A level's actions are those since the line that reached it, which itself counts for the level before. */
  lemma ActionsSinceNewLevel(decode: seq<Byte> -> Option<Event>, s: Stats, line: seq<Byte>, rest: seq<seq<Byte>>)
    requires RaisesLevel(decode, s, line) && StaysOnLevel(decode, Next(decode, s, line), rest)
    ensures Fold(decode, s, [line] + rest).actionsThisLevel == ActionsIn(decode, rest)
    ensures Next(decode, s, line).level == decode(line).value.completed.value
  {
    assert ([line] + rest)[1..] == rest;
    ActionCounts(decode, s, line);
    ActionsAddUp(decode, Next(decode, s, line), rest);
  }

  /** Successes never exceed executions, and both lists of levels have one length. */
  predicate Orderly(s: Stats) {
    s.replSuccess <= s.replTotal && |s.scores| == |s.aiActions|
  }

  lemma {:induction false} FoldOrderly(decode: seq<Byte> -> Option<Event>, s: Stats, lines: seq<seq<Byte>>)
    requires Orderly(s)
    ensures Orderly(Fold(decode, s, lines))
    decreases |lines|
  {
    if lines != [] {
      FoldOrderly(decode, Next(decode, s, lines[0]), lines[1..]);
    }
  }

  class GameStats {
    var llmCalls: nat
    var input: int
    var output: int
    var reasoning: int
    var cacheRead: int
    var toolCalls: int
    var codeBlocks: int
    var replTotal: nat
    var replSuccess: nat
    var rounds: nat
    var steps: nat
    var step: int
    var level: int
    var actionsThisLevel: nat
    var models: map<string, Tokens>
    var baselines: seq<int>
    var scores: seq<real>
    var aiActions: seq<int>

    ghost function View(): Stats
      reads this
    {
      Stats(llmCalls, input, output, reasoning, cacheRead, toolCalls, codeBlocks, replTotal, replSuccess,
            rounds, steps, step, level, actionsThisLevel, models, baselines, scores, aiActions)
    }

    constructor ()
      ensures View() == NO_STATS
    {
      llmCalls, input, output, reasoning, cacheRead := 0, 0, 0, 0, 0;
      toolCalls, codeBlocks, replTotal, replSuccess, rounds, steps := 0, 0, 0, 0, 0, 0;
      step, level, actionsThisLevel := 0, 0, 0;
      models, baselines, scores, aiActions := map[], [], [], [];
    }

    /** Adds a call's tokens to those of its model. */
    method AddToModel(key: string, tokens: Tokens)
      modifies this`models
      ensures models == old(models)[key := AddTokens(TokensOf(old(models), key), tokens)]
    {
      var t := TokensOf(models, key);
      models := models[key := Tokens(t.input + tokens.input, t.output + tokens.output,
                                     t.cache + tokens.cache, t.cacheWrite + tokens.cacheWrite)];
    }

    /** Counts one model call, in the totals and then in its model's own tokens, up to
        the first field that raises. */
    method AddCall(e: Event)
      requires e.LlmCall?
      modifies this`llmCalls, this`input, this`output, this`reasoning, this`cacheRead, this`toolCalls, this`codeBlocks, this`models
      ensures View() == CountCall(old(View()), e)
    {
      if e.input.Bad? || e.output.Bad? { return; }
      llmCalls, input, output := llmCalls + 1, input + e.input.value, output + e.output.value;
      AddCache(e);
    }

    method AddCache(e: Event)
      requires e.LlmCall? && e.input.Number? && e.output.Number?
      modifies this`reasoning, this`cacheRead, this`toolCalls, this`codeBlocks, this`models
      ensures View() == CountCache(old(View()), e)
    {
      if e.reasoning.Bad? { return; }
      reasoning := reasoning + e.reasoning.value;
      if e.cacheRead.Bad? { return; }
      cacheRead := cacheRead + e.cacheRead.value;
      AddTools(e);
    }

    method AddTools(e: Event)
      requires e.LlmCall? && e.input.Number? && e.output.Number? && e.cacheRead.Number?
      modifies this`toolCalls, this`codeBlocks, this`models
      ensures View() == CountTools(old(View()), e)
    {
      if e.toolCalls.Bad? { return; }
      toolCalls := toolCalls + e.toolCalls.value;
      if e.codeBlocks.Bad? { return; }
      codeBlocks := codeBlocks + e.codeBlocks.value;
      AddToModel(e.key, Tokens(e.input.value, e.output.value, e.cacheRead.value,
                               if e.cacheWrite.Bad? then 0 else e.cacheWrite.value));
    }

    /** Takes over step and level; a new level starts its count of actions at zero. */
    method EnterStep(e: Event)
      requires e.EnvStep?
      modifies this`step, this`level, this`actionsThisLevel
      ensures View() == CountStep(old(View()), e)
    {
      if e.step.Bad? { return; }
      step := Or(e.step.value, step);
      if e.completed.Bad? { return; }
      var newLevel := Or(e.completed.value, level);
      if e.action { actionsThisLevel := actionsThisLevel + 1; }
      if newLevel > level { actionsThisLevel := 0; }
      level := newLevel;
    }

    method Update(e: Event)
      modifies this
      ensures View() == Apply(old(View()), e)
    {
      match e {
        case LlmCall(_, _, _, _, _, _, _, _) => AddCall(e);
        case ReplExecute(success) =>
          replTotal := replTotal + 1;
          if success { replSuccess := replSuccess + 1; }
        case RoundComplete => rounds := rounds + 1;
        case StepComplete => steps := steps + 1;
        case LevelScored(index, ai, bl, recorded) =>
          var lvl := if index.Some? then index.value else |scores|;
          RecordLevel(lvl, ai, if bl != 0 && ai != 0 then LevelScore(bl, ai) else recorded);
        case SolverStart(bls) =>
          if bls != [] { baselines := bls; }
        case EnvStep(_, _, _) => EnterStep(e);
        case OtherEvent =>
      }
    }

    /** Grows both lists to reach the level, then stores into them. */
    method RecordLevel(lvl: nat, ai: int, score: real)
      modifies this`scores, this`aiActions
      ensures scores == Padded(old(scores), lvl, 0.0)[lvl := score]
      ensures aiActions == Padded(old(aiActions), lvl, 0)[lvl := ai]
    {
      while |scores| <= lvl
        invariant aiActions == old(aiActions)
        invariant old(scores) <= scores && (|scores| <= lvl + 1 || scores == old(scores))
        invariant forall i :: |old(scores)| <= i < |scores| ==> scores[i] == 0.0
        decreases lvl + 1 - |scores|
      {
        scores := scores + [0.0];
      }
      assert scores == Padded(old(scores), lvl, 0.0);
      scores := scores[lvl := score];
      while |aiActions| <= lvl
        invariant old(aiActions) <= aiActions && (|aiActions| <= lvl + 1 || aiActions == old(aiActions))
        invariant forall i :: |old(aiActions)| <= i < |aiActions| ==> aiActions[i] == 0
        invariant scores == Padded(old(scores), lvl, 0.0)[lvl := score]
        decreases lvl + 1 - |aiActions|
      {
        aiActions := aiActions + [0];
      }
      assert aiActions == Padded(old(aiActions), lvl, 0);
      aiActions := aiActions[lvl := ai];
    }
  }

  // ------------------------------------------------------------ the tailer

  /** The bytes a poll has taken in, from those before it and the file it finds:
      a file that shrank starts over, otherwise what lies past the offset is new. */
  function SeenAfter(seen: seq<Byte>, file: seq<Byte>): seq<Byte> {
    if |file| < |seen| then file else seen + file[|seen|..]
  }

  class GameTracker {
    const decode: seq<Byte> -> Option<Event>
    var stats: GameStats
    var offset: nat
    var buf: seq<Byte>
    /** All the bytes taken in since the fold last started over. */
    ghost var seen: seq<Byte>

    /** The statistics are the fold of the complete lines taken in, and the buffer
        is the partial line after them. */
    ghost predicate Valid()
      reads this, stats
    {
      && offset == |seen|
      && buf == Partial(seen)
      && stats.View() == Fold(decode, NO_STATS, Complete(seen))
    }

    constructor (decode: seq<Byte> -> Option<Event>)
      ensures Valid() && seen == [] && this.decode == decode && fresh(stats)
    {
      this.decode := decode;
      stats := new GameStats();
      offset, buf, seen := 0, [], [];
    }

    /** One poll that finds `file`, unchanged between taking its size and reading it. */
    method Poll(file: Option<seq<Byte>>)
      requires Valid()
      modifies this, stats
      ensures Valid() && (stats == old(stats) || fresh(stats))
      ensures seen == if file.None? then old(seen) else SeenAfter(old(seen), file.value)
    {
      if file.None? { return; }
      var size := |file.value|;
      if size < offset {
        stats := new GameStats();
        offset, buf, seen := 0, [], [];
      }
      if size == offset {
        assert file.value[|seen|..] == [];
        return;
      }
      var chunk := file.value[offset..];
      assert [] + file.value[0..] == file.value;
      TakeIn(chunk, size);
    }

    method TakeIn(chunk: seq<Byte>, size: nat)
      requires Valid() && size == offset + |chunk|
      modifies this`offset, this`buf, this`seen, stats
      ensures Valid() && seen == old(seen) + chunk
    {
      ChunkedSplit(seen, chunk);
      offset := size;
      var data := buf + chunk;
      var parts := Split(data);
      buf := parts[|parts| - 1];
      var lines := parts[..|parts| - 1];
      FoldAppend(decode, NO_STATS, Complete(seen), lines);
      ghost var before := stats.View();
      for i := 0 to |lines|
        invariant stats.View() == Fold(decode, before, lines[..i])
        invariant offset == size && buf == Partial(data) && seen == old(seen)
      {
        assert lines[..i + 1] == lines[..i] + [lines[i]];
        FoldAppend(decode, before, lines[..i], [lines[i]]);
        assert [lines[i]][1..] == [];
        var e := decode(lines[i]);
        if e.Some? { stats.Update(e.value); }
      }
      assert lines[..|lines|] == lines;
      seen := seen + chunk;
    }
  }

  // ------------------------------------------------------------ whole runs

  /** What a tracker has taken in after polls that found `versions` of the file in turn. */
  function SeenAfterAll(seen: seq<Byte>, versions: seq<seq<Byte>>): seq<Byte>
    decreases |versions|
  {
    if versions == [] then seen else SeenAfterAll(SeenAfter(seen, versions[0]), versions[1..])
  }

  /** Between polls the log grew by appends, or it was cut below what was already read. */
  predicate GrownOrCut(seen: seq<Byte>, file: seq<Byte>) {
    seen <= file || |file| < |seen|
  }

  /** Polling agrees with reading the whole file exactly when the bytes read
      before are still there or the file is now shorter than they are. */
  lemma PollSeesWholeFileIff(seen: seq<Byte>, file: seq<Byte>)
    ensures SeenAfter(seen, file) == file <==> GrownOrCut(seen, file)
  {
    if seen <= file { assert seen + file[|seen|..] == file; }
    if |file| >= |seen| { assert seen <= seen + file[|seen|..]; }
  }

  /** After any number of polls between which the log was appended to, or cut so
      that a poll saw it shorter, the statistics are those of the whole file. */
  lemma {:induction false} TailEqualsWholeFold(seen: seq<Byte>, versions: seq<seq<Byte>>, decode: seq<Byte> -> Option<Event>)
    requires versions != [] && GrownOrCut(seen, versions[0])
    requires forall i :: 0 <= i < |versions| - 1 ==> GrownOrCut(versions[i], versions[i + 1])
    ensures SeenAfterAll(seen, versions) == versions[|versions| - 1]
    ensures Fold(decode, NO_STATS, Complete(SeenAfterAll(seen, versions)))
            == Fold(decode, NO_STATS, Complete(versions[|versions| - 1]))
    decreases |versions|
  {
    PollSeesWholeFileIff(seen, versions[0]);
    if |versions| > 1 {
      forall i | 0 <= i < |versions| - 2 ensures GrownOrCut(versions[1..][i], versions[1..][i + 1]) {
        assert GrownOrCut(versions[i + 1], versions[i + 1 + 1]);
      }
      TailEqualsWholeFold(versions[0], versions[1..], decode);
    }
  }
}
