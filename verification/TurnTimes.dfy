/**
What the event exporter reports when an agent turn ends: the rounds of the turn,
the code time of each round, and the buffered spans that the turn uses up.
*/
module TurnTimes {
  import opened Exporters
  import opened Wrappers

  // ------------------------------------------------------------- records

  /** A buffered span; `agent` marks a model call that counts as a round. */
  datatype Record = Record(start: int, end: int, agent: bool)

  function Duration(r: Record): nat {
    if r.end > r.start then r.end - r.start else 0
  }

  function InWindow(records: seq<Record>, lo: int, hi: int): (kept: seq<Record>)
    ensures forall r :: r in kept <==> r in records && lo <= r.start < hi
  {
    if records == [] then []
    else if lo <= records[0].start < hi then [records[0]] + InWindow(records[1..], lo, hi)
    else InWindow(records[1..], lo, hi)
  }

  function AgentRounds(records: seq<Record>): (kept: seq<Record>)
    ensures forall r :: r in kept <==> r in records && r.agent
  {
    if records == [] then []
    else if records[0].agent then [records[0]] + AgentRounds(records[1..])
    else AgentRounds(records[1..])
  }

  /** Records that begin at `t` or later. */
  function From(records: seq<Record>, t: int): (kept: seq<Record>)
    ensures forall r :: r in kept <==> r in records && t <= r.start
  {
    if records == [] then []
    else if t <= records[0].start then [records[0]] + From(records[1..], t)
    else From(records[1..], t)
  }

  /** Stable insertion by a key. */
  function Insert<T>(key: T -> int, x: T, sorted: seq<T>): (all: seq<T>)
    ensures multiset(all) == multiset(sorted) + multiset{x}
  {
    if sorted == [] then [x]
    else if key(x) <= key(sorted[0]) then [x] + sorted
    else
      assert sorted == [sorted[0]] + sorted[1..];
      [sorted[0]] + Insert(key, x, sorted[1..])
  }

  /** A stable sort. */
  function SortBy<T>(key: T -> int, xs: seq<T>): (sorted: seq<T>)
    ensures multiset(sorted) == multiset(xs)
  {
    if xs == [] then []
    else
      assert xs == [xs[0]] + xs[1..];
      Insert(key, xs[0], SortBy(key, xs[1..]))
  }

  predicate InOrder<T>(key: T -> int, xs: seq<T>) {
    forall i, j :: 0 <= i < j < |xs| ==> key(xs[i]) <= key(xs[j])
  }

  lemma {:induction false} InsertKeepsOrder<T>(key: T -> int, x: T, sorted: seq<T>)
    requires InOrder(key, sorted)
    ensures InOrder(key, Insert(key, x, sorted))
  {
    if sorted != [] && key(x) > key(sorted[0]) {
      var rest := Insert(key, x, sorted[1..]);
      InsertKeepsOrder(key, x, sorted[1..]);
      forall j | 0 <= j < |rest| ensures key(sorted[0]) <= key(rest[j]) {
        assert rest[j] in multiset(rest);
        assert rest[j] == x || rest[j] in sorted[1..];
      }
    }
  }

  lemma {:induction false} SortedInOrder<T>(key: T -> int, xs: seq<T>)
    ensures InOrder(key, SortBy(key, xs))
  {
    if xs != [] {
      SortedInOrder(key, xs[1..]);
      InsertKeepsOrder(key, xs[0], SortBy(key, xs[1..]));
    }
  }

  function StartKey(r: Record): int {
    r.start
  }

  // --------------------------------------------------------- attribution

  /** The rounds of a turn, in order of start. */
  function RoundsOf(calls: seq<Record>, lo: int, hi: int): (rounds: seq<Record>) {
    SortBy(StartKey, InWindow(AgentRounds(calls), lo, hi))
  }

  /** Where round `i` stops collecting code: the next round, or the end of the turn. */
  function NextStart(rounds: seq<Record>, i: nat, hi: int): int
    requires i < |rounds|
  {
    if i + 1 < |rounds| then rounds[i + 1].start else hi
  }

  /** Round `i` collects code that begins at `t`. */
  predicate Collects(rounds: seq<Record>, hi: int, i: nat, t: int)
    requires i < |rounds|
  {
    rounds[i].end <= t < NextStart(rounds, i, hi)
  }

  /** Time of the code cells that begin in a window. */
  function CodeTime(codes: seq<Record>, lo: int, hi: int): nat {
    if codes == [] then 0
    else (if lo <= codes[0].start < hi then Duration(codes[0]) else 0) + CodeTime(codes[1..], lo, hi)
  }

  /** The code time of round `i`. */
  function RoundTime(rounds: seq<Record>, codes: seq<Record>, hi: int, i: nat): nat
    requires i < |rounds|
  {
    CodeTime(codes, rounds[i].end, NextStart(rounds, i, hi))
  }

  /** The code time of the first `n` rounds together. */
  function RoundsTime(rounds: seq<Record>, codes: seq<Record>, hi: int, n: nat): nat
    requires n <= |rounds|
  {
    if n == 0 then 0 else RoundsTime(rounds, codes, hi, n - 1) + RoundTime(rounds, codes, hi, n - 1)
  }

  predicate Collected(rounds: seq<Record>, hi: int, n: nat, t: int)
    requires n <= |rounds|
  {
    exists i: nat :: i < n && Collects(rounds, hi, i, t)
  }

  /** Time of the code cells that some of the first `n` rounds collect. */
  function CollectedTime(rounds: seq<Record>, codes: seq<Record>, hi: int, n: nat): nat
    requires n <= |rounds|
  {
    if codes == [] then 0
    else (if Collected(rounds, hi, n, codes[0].start) then Duration(codes[0]) else 0)
         + CollectedTime(rounds, codes[1..], hi, n)
  }

  predicate StartsInOrder(rounds: seq<Record>) {
    forall i, j :: 0 <= i < j < |rounds| ==> rounds[i].start <= rounds[j].start
  }

  /** The rounds of a turn that begin in it and in order. */
  predicate TurnRounds(rounds: seq<Record>, hi: int) {
    StartsInOrder(rounds) && forall i :: 0 <= i < |rounds| ==> rounds[i].start < hi
  }

  /** A call that ends before an earlier round's successor began leaves that round, or itself, no room. */
  predicate Tidy(rounds: seq<Record>, hi: int) {
    forall i, j ::
      0 <= i < j < |rounds| && rounds[i].end < rounds[i + 1].start && rounds[j].end < NextStart(rounds, j, hi)
      ==> rounds[i + 1].start <= rounds[j].end
  }

  predicate AtMostOneRound(rounds: seq<Record>, hi: int, t: int) {
    forall i, j :: 0 <= i < j < |rounds| ==> !(Collects(rounds, hi, i, t) && Collects(rounds, hi, j, t))
  }

  /** Every cell goes to at most one round exactly when the rounds are tidy. */
  lemma OneRoundEachIff(rounds: seq<Record>, hi: int)
    requires TurnRounds(rounds, hi)
    ensures (forall t :: AtMostOneRound(rounds, hi, t)) <==> Tidy(rounds, hi)
  {
    if forall t :: AtMostOneRound(rounds, hi, t) {
      forall i, j |
        0 <= i < j < |rounds| && rounds[i].end < rounds[i + 1].start && rounds[j].end < NextStart(rounds, j, hi)
        ensures rounds[i + 1].start <= rounds[j].end
      {
        var t := if rounds[i].end <= rounds[j].end then rounds[j].end else rounds[i].end;
        assert AtMostOneRound(rounds, hi, t);
        assert !(Collects(rounds, hi, i, t) && Collects(rounds, hi, j, t));
        assert rounds[i + 1].start <= rounds[j].start <= NextStart(rounds, j, hi);
      }
    }
  }

  /** Rounds that do not end before they begin are tidy. */
  lemma ForwardRoundsAreTidy(rounds: seq<Record>, hi: int)
    requires StartsInOrder(rounds) && forall i :: 0 <= i < |rounds| ==> rounds[i].start <= rounds[i].end
    ensures Tidy(rounds, hi)
  {
    forall i, j |
      0 <= i < j < |rounds| && rounds[i].end < rounds[i + 1].start && rounds[j].end < NextStart(rounds, j, hi)
      ensures rounds[i + 1].start <= rounds[j].end
    {
      assert rounds[i + 1].start <= rounds[j].start <= rounds[j].end;
    }
  }

  /** The first `n + 1` rounds collect what the first `n` do and what round `n` adds. */
  lemma {:induction false} OneMoreRound(rounds: seq<Record>, codes: seq<Record>, hi: int, n: nat)
    requires n < |rounds| && Tidy(rounds, hi) && TurnRounds(rounds, hi)
    ensures CollectedTime(rounds, codes, hi, n + 1)
         == CollectedTime(rounds, codes, hi, n) + RoundTime(rounds, codes, hi, n)
  {
    if codes != [] {
      OneMoreRound(rounds, codes[1..], hi, n);
      var t := codes[0].start;
      OneRoundEachIff(rounds, hi);
      assert AtMostOneRound(rounds, hi, t);
      assert Collected(rounds, hi, n + 1, t) <==> Collected(rounds, hi, n, t) || Collects(rounds, hi, n, t);
      assert !(Collected(rounds, hi, n, t) && Collects(rounds, hi, n, t));
    }
  }

  lemma {:induction false} NothingCollected(rounds: seq<Record>, codes: seq<Record>, hi: int)
    ensures CollectedTime(rounds, codes, hi, 0) == 0
  {
    if codes != [] {
      NothingCollected(rounds, codes[1..], hi);
    }
  }

  /** Together the rounds report the time of the cells they collect, each cell once. */
  lemma {:induction false} RoundsShareTheTime(rounds: seq<Record>, codes: seq<Record>, hi: int, n: nat)
    requires n <= |rounds| && Tidy(rounds, hi) && TurnRounds(rounds, hi)
    ensures RoundsTime(rounds, codes, hi, n) == CollectedTime(rounds, codes, hi, n)
  {
    if n == 0 {
      NothingCollected(rounds, codes, hi);
    } else {
      RoundsShareTheTime(rounds, codes, hi, n - 1);
      OneMoreRound(rounds, codes, hi, n - 1);
    }
  }

  /** All the code time of a list of cells. */
  function TotalTime(codes: seq<Record>): nat {
    if codes == [] then 0 else Duration(codes[0]) + TotalTime(codes[1..])
  }

  lemma {:induction false} CollectedAtMostTotal(rounds: seq<Record>, codes: seq<Record>, hi: int, n: nat)
    requires n <= |rounds|
    ensures CollectedTime(rounds, codes, hi, n) <= TotalTime(codes)
  {
    if codes != [] {
      CollectedAtMostTotal(rounds, codes[1..], hi, n);
    }
  }

  lemma {:induction false} InsertAddsTime(c: Record, codes: seq<Record>)
    ensures TotalTime(Insert(StartKey, c, codes)) == Duration(c) + TotalTime(codes)
  {
    if codes != [] && c.start > codes[0].start {
      InsertAddsTime(c, codes[1..]);
    }
  }

  lemma {:induction false} SortingKeepsTime(codes: seq<Record>)
    ensures TotalTime(SortBy(StartKey, codes)) == TotalTime(codes)
  {
    if codes != [] {
      SortingKeepsTime(codes[1..]);
      InsertAddsTime(codes[0], SortBy(StartKey, codes[1..]));
    }
  }

  /** What a turn's window holds and what is kept after it were all buffered before. */
  lemma {:induction false} WindowAndRest(codes: seq<Record>, lo: int, hi: int)
    ensures TotalTime(InWindow(codes, lo, hi)) + TotalTime(From(codes, hi)) <= TotalTime(codes)
  {
    if codes != [] {
      WindowAndRest(codes[1..], lo, hi);
      var w, f := InWindow(codes[1..], lo, hi), From(codes[1..], hi);
      assert ([codes[0]] + w)[1..] == w && ([codes[0]] + f)[1..] == f;
    }
  }

  /** The code cells a turn looks at. */
  function CellsOf(codes: seq<Record>, lo: int, hi: int): seq<Record> {
    SortBy(StartKey, InWindow(codes, lo, hi))
  }

  lemma {:induction false} WindowCounts(records: seq<Record>, lo: int, hi: int, r: Record)
    ensures multiset(InWindow(records, lo, hi))[r] == if lo <= r.start < hi then multiset(records)[r] else 0
  {
    if records != [] {
      WindowCounts(records[1..], lo, hi, r);
      assert records == [records[0]] + records[1..];
    }
  }

  lemma {:induction false} AgentCounts(records: seq<Record>, r: Record)
    ensures multiset(AgentRounds(records))[r] == if r.agent then multiset(records)[r] else 0
  {
    if records != [] {
      AgentCounts(records[1..], r);
      assert records == [records[0]] + records[1..];
    }
  }

  /** Each agent call of the window is as many rounds as it was buffered, and nothing else is one. */
  lemma RoundsCounted(calls: seq<Record>, lo: int, hi: int, r: Record)
    ensures multiset(RoundsOf(calls, lo, hi))[r] == if r.agent && lo <= r.start < hi then multiset(calls)[r] else 0
  {
    WindowCounts(AgentRounds(calls), lo, hi, r);
    AgentCounts(calls, r);
  }

  lemma RoundsOfTurn(calls: seq<Record>, lo: int, hi: int)
    ensures TurnRounds(RoundsOf(calls, lo, hi), hi)
    ensures forall r :: r in RoundsOf(calls, lo, hi) <==> r in calls && r.agent && lo <= r.start < hi
  {
    var window := InWindow(AgentRounds(calls), lo, hi);
    var rounds := RoundsOf(calls, lo, hi);
    SortedInOrder(StartKey, window);
    assert forall i, j :: 0 <= i < j < |rounds| ==> StartKey(rounds[i]) <= StartKey(rounds[j]);
    assert forall r :: r in rounds <==> r in multiset(rounds);
    assert forall r :: r in window <==> r in multiset(window);
    assert forall i :: 0 <= i < |rounds| ==> rounds[i] in rounds;
  }

  /** Calls that do not end before they begin. */
  predicate Forward(calls: seq<Record>) {
    forall r :: r in calls ==> r.start <= r.end
  }

  lemma {:induction false} WindowTotal(codes: seq<Record>, lo: int, hi: int)
    ensures TotalTime(InWindow(codes, lo, hi)) == CodeTime(codes, lo, hi)
  {
    if codes != [] {
      WindowTotal(codes[1..], lo, hi);
      var w := InWindow(codes[1..], lo, hi);
      assert ([codes[0]] + w)[1..] == w;
    }
  }

  lemma ForwardTurnIsTidy(calls: seq<Record>, lo: int, hi: int)
    requires Forward(calls)
    ensures Tidy(RoundsOf(calls, lo, hi), hi)
  {
    var rounds := RoundsOf(calls, lo, hi);
    RoundsOfTurn(calls, lo, hi);
    forall i | 0 <= i < |rounds| ensures rounds[i].start <= rounds[i].end {
      assert rounds[i] in rounds;
    }
    ForwardRoundsAreTidy(rounds, hi);
  }

  /**
  The time a tidy turn's rounds report is that of the cells they collect, each
  counted once: no more than the code time of the turn's own window, and with
  what the turn leaves buffered no more than what was buffered before.
  */
  lemma TurnTimeIsCovered(calls: seq<Record>, codes: seq<Record>, lo: int, hi: int)
    requires Tidy(RoundsOf(calls, lo, hi), hi)
    ensures var rounds, cells := RoundsOf(calls, lo, hi), CellsOf(codes, lo, hi);
      && (forall t :: AtMostOneRound(rounds, hi, t))
      && RoundsTime(rounds, cells, hi, |rounds|) == CollectedTime(rounds, cells, hi, |rounds|)
      && RoundsTime(rounds, cells, hi, |rounds|) <= TotalTime(cells) == CodeTime(codes, lo, hi)
      && RoundsTime(rounds, cells, hi, |rounds|) + TotalTime(From(codes, hi)) <= TotalTime(codes)
  {
    var rounds, cells := RoundsOf(calls, lo, hi), CellsOf(codes, lo, hi);
    RoundsOfTurn(calls, lo, hi);
    OneRoundEachIff(rounds, hi);
    RoundsShareTheTime(rounds, cells, hi, |rounds|);
    CollectedAtMostTotal(rounds, cells, hi, |rounds|);
    SortingKeepsTime(InWindow(codes, lo, hi));
    WindowTotal(codes, lo, hi);
    WindowAndRest(codes, lo, hi);
  }

  lemma OneCell(cell: Record, lo: int, hi: int)
    ensures CodeTime([cell], lo, hi) == if lo <= cell.start < hi then Duration(cell) else 0
  {
  }

  /** A call that ends before it begins can have a cell counted twice: 1 ns of code is reported as 2. */
  lemma BackwardCallCountsTwice()
    ensures var calls := [Record(0, 0, true), Record(10, 1, true)];
      var cell := Record(5, 6, false);
      var rounds := RoundsOf(calls, 0, 20);
      && rounds == calls
      && RoundsTime(rounds, CellsOf([cell], 0, 20), 20, 2) == 2 * TotalTime([cell])
  {
    var a, b, cell := Record(0, 0, true), Record(10, 1, true), Record(5, 6, false);
    var calls := [a, b];
    assert AgentRounds([b]) == [b] && AgentRounds(calls) == [a] + AgentRounds([b]);
    assert InWindow([b], 0, 20) == [b] && InWindow(calls, 0, 20) == [a] + InWindow([b], 0, 20);
    assert SortBy(StartKey, [b]) == [b];
    assert SortBy(StartKey, calls) == Insert(StartKey, a, [b]) == [a, b];
    assert InWindow([cell], 0, 20) == [cell];
    assert CellsOf([cell], 0, 20) == [cell];
    OneCell(cell, 0, 10);
    OneCell(cell, 1, 20);
    assert RoundTime(calls, [cell], 20, 0) == 1 && RoundTime(calls, [cell], 20, 1) == 1;
    assert RoundsTime(calls, [cell], 20, 1) == RoundsTime(calls, [cell], 20, 0) + 1;
  }

  // ------------------------------------------------------------- pruning

  /** A window looks at nothing that begins before it. */
  lemma {:induction false} WindowFrom(calls: seq<Record>, lo: int, hi: int)
    ensures InWindow(AgentRounds(From(calls, lo)), lo, hi) == InWindow(AgentRounds(calls), lo, hi)
    ensures InWindow(From(calls, lo), lo, hi) == InWindow(calls, lo, hi)
  {
    if calls != [] {
      WindowFrom(calls[1..], lo, hi);
      var f, g := From(calls[1..], lo), AgentRounds(calls[1..]);
      var h := AgentRounds(f);
      assert ([calls[0]] + f)[1..] == f && ([calls[0]] + g)[1..] == g && ([calls[0]] + h)[1..] == h;
    }
  }

  lemma {:induction false} FromFrom(records: seq<Record>, a: int, b: int)
    requires a <= b
    ensures From(From(records, a), b) == From(records, b)
  {
    if records != [] {
      FromFrom(records[1..], a, b);
      var f := From(records[1..], a);
      assert ([records[0]] + f)[1..] == f;
    }
  }

  lemma {:induction false} FromJoin(a: seq<Record>, b: seq<Record>, t: int)
    ensures From(a + b, t) == From(a, t) + From(b, t)
  {
    if a == [] {
      assert a + b == b;
    } else {
      assert (a + b)[1..] == a[1..] + b;
      FromJoin(a[1..], b, t);
    }
  }

  /** The buffer agrees with everything delivered, from any time at which no finished turn reaches. */
  ghost predicate Kept(buffer: seq<Record>, all: seq<Record>, ends: seq<int>) {
    forall t :: (forall e :: e in ends ==> e <= t) ==> From(buffer, t) == From(all, t)
  }

  lemma KeptGrows(buffer: seq<Record>, all: seq<Record>, ends: seq<int>, r: Record)
    requires Kept(buffer, all, ends)
    ensures Kept(buffer + [r], all + [r], ends)
  {
    forall t | forall e :: e in ends ==> e <= t ensures From(buffer + [r], t) == From(all + [r], t) {
      FromJoin(buffer, [r], t);
      FromJoin(all, [r], t);
    }
  }

  lemma KeptPrunes(buffer: seq<Record>, all: seq<Record>, ends: seq<int>, hi: int)
    requires Kept(buffer, all, ends)
    ensures Kept(From(buffer, hi), all, ends + [hi])
  {
    forall t | forall e :: e in ends + [hi] ==> e <= t ensures From(From(buffer, hi), t) == From(all, t) {
      assert hi in ends + [hi];
      assert forall e :: e in ends ==> e in ends + [hi];
      FromFrom(buffer, hi, t);
    }
  }

  /** Pruning is invisible to a turn that begins no earlier than every finished one ended. */
  lemma PruningIsInvisible(buffer: seq<Record>, all: seq<Record>, ends: seq<int>, lo: int, hi: int)
    requires Kept(buffer, all, ends)
    requires forall e :: e in ends ==> e <= lo
    ensures RoundsOf(buffer, lo, hi) == RoundsOf(all, lo, hi)
    ensures CellsOf(buffer, lo, hi) == CellsOf(all, lo, hi)
  {
    assert From(buffer, lo) == From(all, lo);
    WindowFrom(buffer, lo, hi);
    WindowFrom(all, lo, hi);
  }

  // ------------------------------------------------------ event exporter

  /** What the event exporter appends to the log. */
  datatype Event =
    | SystemPrompt(time: int, step: int)
    | UserMessage(time: int, step: int)
    | LlmCall(time: int, stamp: Stamp, latency: nat)
    | ReplExecute(time: int, stamp: Stamp, latency: nat)
    | RoundComplete(time: int, step: int, index: nat, llm: nat, repl: nat)
    | StepComplete(time: int, step: int, wall: nat, rounds: nat)

  function TimeKey(e: Event): int {
    e.time
  }

  /** What happens to the exporter: a span is taken in with its step, or a turn is reported. */
  datatype Entry = Took(span: Span, step: int) | Ended(step: int, lo: int, hi: int)

  datatype History = Start | Then(before: History, last: Entry)

  predicate IsCode(sp: Span) {
    sp.name.CodeSpan?
  }

  /** The two kinds of spans that are buffered: model calls and code cells. */
  datatype Kind = Call | Cell

  predicate IsKind(sp: Span, kind: Kind) {
    match kind
    case Call => Counted(sp)
    case Cell => IsCode(sp)
  }

  predicate Takes(e: Entry, kind: Kind) {
    e.Took? && IsKind(e.span, kind)
  }

  function RecordOf(sp: Span): Record {
    Record(StartOf(sp), EndOf(sp), Counted(sp) && sp.hasTools && sp.hasSystem)
  }

  /** The steps of the spans of a kind taken in, in order. */
  function StepsOf(h: History, kind: Kind): seq<int> {
    match h
    case Start => []
    case Then(before, e) => if Takes(e, kind) then StepsOf(before, kind) + [e.step] else StepsOf(before, kind)
  }

  /** The counters of a kind per step: each span adds one to its own step's. */
  function CountersOf(h: History, kind: Kind): map<int, nat> {
    match h
    case Start => map[]
    case Then(before, e) =>
      var counters := CountersOf(before, kind);
      if Takes(e, kind) then counters[e.step := Tally(counters, e.step) + 1] else counters
  }

  lemma {:induction false} CountersTally(h: History, kind: Kind)
    ensures Tallies(CountersOf(h, kind), StepsOf(h, kind))
  {
    if h.Then? {
      CountersTally(h.before, kind);
      if Takes(h.last, kind) {
        TallyGrows(CountersOf(h.before, kind), StepsOf(h.before, kind), h.last.step);
      }
    }
  }

  /** Every span of a kind taken in. */
  function Taken(h: History, kind: Kind): seq<Record> {
    match h
    case Start => []
    case Then(before, e) => if Takes(e, kind) then Taken(before, kind) + [RecordOf(e.span)] else Taken(before, kind)
  }

  /** Those still buffered: a reported turn drops those that began before its end. */
  function Buffered(h: History, kind: Kind): seq<Record> {
    match h
    case Start => []
    case Then(before, e) =>
      if e.Ended? then From(Buffered(before, kind), e.hi)
      else if Takes(e, kind) then Buffered(before, kind) + [RecordOf(e.span)]
      else Buffered(before, kind)
  }

  /** When the reported turns ended. */
  function Ends(h: History): seq<int> {
    match h
    case Start => []
    case Then(before, e) => if e.Ended? then Ends(before) + [e.hi] else Ends(before)
  }

  /** The report of round `i`. */
  function RoundEvent(rounds: seq<Record>, cells: seq<Record>, step: int, hi: int, i: nat): Event
    requires i < |rounds|
  {
    RoundComplete(rounds[i].start, step, i, Duration(rounds[i]), RoundTime(rounds, cells, hi, i))
  }

  /** What a turn reports: its rounds in order, then the turn itself. */
  function RoundEvents(rounds: seq<Record>, cells: seq<Record>, step: int, hi: int): (events: seq<Event>)
    ensures |events| == |rounds|
  {
    seq(|rounds|, i requires 0 <= i < |rounds| => RoundEvent(rounds, cells, step, hi, i))
  }

  function TurnEvents(calls: seq<Record>, codes: seq<Record>, step: int, lo: int, hi: int): seq<Event> {
    var rounds := RoundsOf(calls, lo, hi);
    RoundEvents(rounds, CellsOf(codes, lo, hi), step, hi)
    + [StepComplete(hi, step, if hi > lo then hi - lo else 0, |rounds|)]
  }

  /** The code time that a list of events reports. */
  function ReportedTime(events: seq<Event>): nat {
    if events == [] then 0
    else
      var last := events[|events| - 1];
      ReportedTime(events[..|events| - 1]) + if last.RoundComplete? then last.repl else 0
  }

  lemma {:induction false} ReportedByRounds(rounds: seq<Record>, cells: seq<Record>, step: int, hi: int, n: nat)
    requires n <= |rounds|
    ensures ReportedTime(RoundEvents(rounds, cells, step, hi)[..n]) == RoundsTime(rounds, cells, hi, n)
  {
    if n > 0 {
      var events := RoundEvents(rounds, cells, step, hi);
      assert events[..n][..n - 1] == events[..n - 1];
      ReportedByRounds(rounds, cells, step, hi, n - 1);
    }
  }

  lemma ReportedByTurn(calls: seq<Record>, codes: seq<Record>, step: int, lo: int, hi: int)
    ensures ReportedTime(TurnEvents(calls, codes, step, lo, hi))
         == RoundsTime(RoundsOf(calls, lo, hi), CellsOf(codes, lo, hi), hi, |RoundsOf(calls, lo, hi)|)
  {
    var rounds, cells := RoundsOf(calls, lo, hi), CellsOf(codes, lo, hi);
    var events, all := RoundEvents(rounds, cells, step, hi), TurnEvents(calls, codes, step, lo, hi);
    assert all[..|all| - 1] == events == events[..|rounds|];
    ReportedByRounds(rounds, cells, step, hi, |rounds|);
  }

  predicate IsReport(e: Event, kind: Kind) {
    match kind
    case Call => e.LlmCall?
    case Cell => e.ReplExecute?
  }

  /** The numbers of the model calls, or of the code cells, among events, in order. */
  function StampsIn(events: seq<Event>, kind: Kind): seq<Stamp> {
    if events == [] then []
    else
      var last, before := events[|events| - 1], StampsIn(events[..|events| - 1], kind);
      if IsReport(last, kind) then before + [last.stamp] else before
  }

  /** The code time reported by all the turns. */
  function Reported(h: History): nat {
    match h
    case Start => 0
    case Then(before, e) =>
      Reported(before)
      + if e.Ended? then ReportedTime(TurnEvents(Buffered(before, Call), Buffered(before, Cell), e.step, e.lo, e.hi)) else 0
  }

  lemma {:induction false} BufferIsKept(h: History, kind: Kind)
    ensures Kept(Buffered(h, kind), Taken(h, kind), Ends(h))
  {
    if h.Then? {
      var buffer, all := Buffered(h.before, kind), Taken(h.before, kind);
      BufferIsKept(h.before, kind);
      match h.last
      case Ended(_, _, hi) => KeptPrunes(buffer, all, Ends(h.before), hi);
      case Took(sp, _) => KeptGrows(buffer, all, Ends(h.before), RecordOf(sp));
    }
  }

  /**
  Whatever happened before, a turn that begins once every reported turn had
  ended is reported as if no span had ever been dropped.
  */
  lemma TurnSeesEverything(h: History, step: int, lo: int, hi: int)
    requires forall e :: e in Ends(h) ==> e <= lo
    ensures TurnEvents(Buffered(h, Call), Buffered(h, Cell), step, lo, hi)
         == TurnEvents(Taken(h, Call), Taken(h, Cell), step, lo, hi)
  {
    BufferIsKept(h, Call);
    BufferIsKept(h, Cell);
    PruningIsInvisible(Buffered(h, Call), Taken(h, Call), Ends(h), lo, hi);
    PruningIsInvisible(Buffered(h, Cell), Taken(h, Cell), Ends(h), lo, hi);
  }

  // ------------------------------------------- what pruning takes from a turn

  /** The weight of some records, and the ones that weigh anything. */
  function Sum(w: Record -> nat, records: seq<Record>): nat {
    if records == [] then 0 else w(records[0]) + Sum(w, records[1..])
  }

  function Live(w: Record -> nat, records: seq<Record>): (live: seq<Record>)
    ensures forall r :: r in live <==> r in records && w(r) > 0
  {
    if records == [] then []
    else if w(records[0]) > 0 then [records[0]] + Live(w, records[1..])
    else Live(w, records[1..])
  }

  lemma {:induction false} LiveSum(w: Record -> nat, records: seq<Record>)
    ensures Sum(w, Live(w, records)) == Sum(w, records)
  {
    if records != [] {
      LiveSum(w, records[1..]);
      var live := Live(w, records[1..]);
      assert ([records[0]] + live)[1..] == live;
    }
  }

  lemma {:induction false} SumLiveSnoc(w: Record -> nat, records: seq<Record>, r: Record)
    ensures Sum(w, records + [r]) == Sum(w, records) + w(r)
    ensures Live(w, records + [r]) == Live(w, records) + (if w(r) > 0 then [r] else [])
  {
    if records == [] {
      assert [r][1..] == [] && records + [r] == [r];
    } else {
      assert (records + [r])[1..] == records[1..] + [r];
      SumLiveSnoc(w, records[1..], r);
      Regroup([records[0]], Live(w, records[1..]), if w(r) > 0 then [r] else []);
    }
  }

  /** Dropping what began before `e` takes weight away exactly when something that weighs began before `e`. */
  lemma {:induction false} DroppedWeight(w: Record -> nat, records: seq<Record>, e: int)
    ensures Sum(w, From(records, e)) <= Sum(w, records)
    ensures (forall r :: r in records && w(r) > 0 ==> e <= r.start) ==> Live(w, From(records, e)) == Live(w, records)
    ensures (exists r :: r in records && w(r) > 0 && r.start < e) ==> Sum(w, From(records, e)) < Sum(w, records)
  {
    if records != [] {
      DroppedWeight(w, records[1..], e);
      var f := From(records[1..], e);
      assert ([records[0]] + f)[1..] == f;
    }
  }

  /** No turn was reported that ended after the start of a span, of this weight, taken in before it. */
  ghost predicate Harmless(h: History, kind: Kind, w: Record -> nat) {
    match h
    case Start => true
    case Then(before, e) =>
      && Harmless(before, kind, w)
      && (e.Ended? ==> forall r :: r in Taken(before, kind) && w(r) > 0 ==> e.hi <= r.start)
  }

  lemma TakeKeeps(w: Record -> nat, buffer: seq<Record>, all: seq<Record>, r: Record, kept: bool)
    requires Sum(w, buffer) <= Sum(w, all)
    requires if kept then Live(w, buffer) == Live(w, all) else Sum(w, buffer) < Sum(w, all)
    ensures Sum(w, buffer + [r]) <= Sum(w, all + [r])
    ensures if kept then Live(w, buffer + [r]) == Live(w, all + [r]) else Sum(w, buffer + [r]) < Sum(w, all + [r])
  {
    SumLiveSnoc(w, buffer, r);
    SumLiveSnoc(w, all, r);
  }

  lemma DropKeeps(w: Record -> nat, buffer: seq<Record>, all: seq<Record>, e: int, kept: bool)
    requires Sum(w, buffer) <= Sum(w, all)
    requires if kept then Live(w, buffer) == Live(w, all) else Sum(w, buffer) < Sum(w, all)
    ensures Sum(w, From(buffer, e)) <= Sum(w, all)
    ensures var ok := kept && forall r :: r in all && w(r) > 0 ==> e <= r.start;
      if ok then Live(w, From(buffer, e)) == Live(w, all) else Sum(w, From(buffer, e)) < Sum(w, all)
  {
    DroppedWeight(w, buffer, e);
    if kept {
      LiveSum(w, buffer);
      LiveSum(w, all);
      assert forall r :: r in Live(w, buffer) <==> r in Live(w, all);
    }
  }

  /** The buffer has all the weight that was taken in exactly when every report so far was harmless to it. */
  lemma {:induction false} HarmlessKeeps(h: History, kind: Kind, w: Record -> nat)
    ensures Sum(w, Buffered(h, kind)) <= Sum(w, Taken(h, kind))
    ensures Harmless(h, kind, w) ==> Live(w, Buffered(h, kind)) == Live(w, Taken(h, kind))
    ensures !Harmless(h, kind, w) ==> Sum(w, Buffered(h, kind)) < Sum(w, Taken(h, kind))
  {
    if h.Then? {
      var buffer, all := Buffered(h.before, kind), Taken(h.before, kind);
      HarmlessKeeps(h.before, kind, w);
      var kept := Harmless(h.before, kind, w);
      if h.last.Ended? {
        DropKeeps(w, buffer, all, h.last.hi, kept);
      } else if Takes(h.last, kind) {
        TakeKeeps(w, buffer, all, RecordOf(h.last.span), kept);
      }
    }
  }

  /** Each round of the window weighs one. */
  function RoundWeight(lo: int, hi: int): Record -> nat {
    (r: Record) => if r.agent && lo <= r.start < hi then 1 else 0
  }

  /** Each cell that begins in the window weighs its time. */
  function CellWeight(lo: int, hi: int): Record -> nat {
    (c: Record) => if lo <= c.start < hi then Duration(c) else 0
  }

  lemma {:induction false} WindowIsLive(calls: seq<Record>, lo: int, hi: int)
    ensures InWindow(AgentRounds(calls), lo, hi) == Live(RoundWeight(lo, hi), calls)
    ensures |Live(RoundWeight(lo, hi), calls)| == Sum(RoundWeight(lo, hi), calls)
  {
    if calls != [] {
      WindowIsLive(calls[1..], lo, hi);
      var g := AgentRounds(calls[1..]);
      assert ([calls[0]] + g)[1..] == g;
    }
  }

  lemma {:induction false} CodeTimeIsSum(codes: seq<Record>, lo: int, hi: int)
    ensures CodeTime(codes, lo, hi) == Sum(CellWeight(lo, hi), codes)
  {
    if codes != [] {
      CodeTimeIsSum(codes[1..], lo, hi);
    }
  }

  lemma {:induction false} InsertKeepsCodeTime(c: Record, codes: seq<Record>, a: int, b: int)
    ensures CodeTime(Insert(StartKey, c, codes), a, b) == (if a <= c.start < b then Duration(c) else 0) + CodeTime(codes, a, b)
  {
    if codes != [] && c.start > codes[0].start {
      InsertKeepsCodeTime(c, codes[1..], a, b);
    }
  }

  /** The turn's sorted cells have, in any part of its window, the code time of all cells there. */
  lemma {:induction false} CellsCodeTime(codes: seq<Record>, lo: int, hi: int, a: int, b: int)
    requires b <= hi
    ensures CodeTime(CellsOf(codes, lo, hi), a, b) == CodeTime(codes, Later(lo, a), b)
  {
    if codes != [] {
      CellsCodeTime(codes[1..], lo, hi, a, b);
      if lo <= codes[0].start < hi {
        var w := InWindow(codes[1..], lo, hi);
        assert ([codes[0]] + w)[1..] == w;
        InsertKeepsCodeTime(codes[0], SortBy(StartKey, w), a, b);
      }
    }
  }

  function Later(a: int, b: int): int {
    if a <= b then b else a
  }

  /** From when round `i` of a turn collects cells of the turn. */
  function CollectsFrom(rounds: seq<Record>, lo: int, i: nat): int
    requires i < |rounds|
  {
    Later(lo, rounds[i].end)
  }

  /** No cell that round `i` collects was dropped. */
  ghost predicate RoundUnharmed(h: History, rounds: seq<Record>, lo: int, hi: int, i: nat)
    requires i < |rounds|
  {
    Harmless(h, Cell, CellWeight(CollectsFrom(rounds, lo, i), NextStart(rounds, i, hi)))
  }

  lemma RoundTimeKeptIff(h: History, rounds: seq<Record>, lo: int, hi: int, i: nat)
    requires i < |rounds| && TurnRounds(rounds, hi)
    ensures RoundTime(rounds, CellsOf(Buffered(h, Cell), lo, hi), hi, i) == RoundTime(rounds, CellsOf(Taken(h, Cell), lo, hi), hi, i)
            <==> RoundUnharmed(h, rounds, lo, hi, i)
  {
    var a, b := CollectsFrom(rounds, lo, i), NextStart(rounds, i, hi);
    CellsCodeTime(Buffered(h, Cell), lo, hi, rounds[i].end, b);
    CellsCodeTime(Taken(h, Cell), lo, hi, rounds[i].end, b);
    CodeTimeIsSum(Buffered(h, Cell), a, b);
    CodeTimeIsSum(Taken(h, Cell), a, b);
    HarmlessKeeps(h, Cell, CellWeight(a, b));
    LiveSum(CellWeight(a, b), Buffered(h, Cell));
    LiveSum(CellWeight(a, b), Taken(h, Cell));
  }

  lemma RoundsKeptIff(h: History, lo: int, hi: int)
    ensures Harmless(h, Call, RoundWeight(lo, hi)) ==> RoundsOf(Buffered(h, Call), lo, hi) == RoundsOf(Taken(h, Call), lo, hi)
    ensures !Harmless(h, Call, RoundWeight(lo, hi)) ==> |RoundsOf(Buffered(h, Call), lo, hi)| < |RoundsOf(Taken(h, Call), lo, hi)|
  {
    HarmlessKeeps(h, Call, RoundWeight(lo, hi));
    WindowIsLive(Buffered(h, Call), lo, hi);
    WindowIsLive(Taken(h, Call), lo, hi);
    SortKeepsLength(InWindow(AgentRounds(Buffered(h, Call)), lo, hi));
    SortKeepsLength(InWindow(AgentRounds(Taken(h, Call)), lo, hi));
  }

  lemma SortKeepsLength(records: seq<Record>)
    ensures |SortBy(StartKey, records)| == |records|
  {
    assert |multiset(SortBy(StartKey, records))| == |multiset(records)|;
  }

  /**
  Whatever happened before, a turn is reported as if no span had ever been
  dropped if and only if no turn reported earlier ended after the start of one
  of its rounds, or of a cell that one of its rounds collects, taken in before.
  */
  lemma PruningHarmlessIff(h: History, step: int, lo: int, hi: int)
    ensures var rounds := RoundsOf(Taken(h, Call), lo, hi);
      TurnEvents(Buffered(h, Call), Buffered(h, Cell), step, lo, hi)
      == TurnEvents(Taken(h, Call), Taken(h, Cell), step, lo, hi)
      <==> Harmless(h, Call, RoundWeight(lo, hi)) && forall i :: 0 <= i < |rounds| ==> RoundUnharmed(h, rounds, lo, hi, i)
  {
    RoundsKeptIff(h, lo, hi);
    if Harmless(h, Call, RoundWeight(lo, hi)) {
      SameRoundsIff(h, RoundsOf(Taken(h, Call), lo, hi), step, lo, hi);
    }
  }

  lemma SameRoundsIff(h: History, rounds: seq<Record>, step: int, lo: int, hi: int)
    requires rounds == RoundsOf(Taken(h, Call), lo, hi) == RoundsOf(Buffered(h, Call), lo, hi)
    ensures TurnEvents(Buffered(h, Call), Buffered(h, Cell), step, lo, hi)
         == TurnEvents(Taken(h, Call), Taken(h, Cell), step, lo, hi)
      <==> forall i :: 0 <= i < |rounds| ==> RoundUnharmed(h, rounds, lo, hi, i)
  {
    var kept := RoundEvents(rounds, CellsOf(Buffered(h, Cell), lo, hi), step, hi);
    var full := RoundEvents(rounds, CellsOf(Taken(h, Cell), lo, hi), step, hi);
    RoundsOfTurn(Taken(h, Call), lo, hi);
    forall i | 0 <= i < |rounds| ensures kept[i] == full[i] <==> RoundUnharmed(h, rounds, lo, hi, i) {
      RoundTimeKeptIff(h, rounds, lo, hi, i);
    }
    var end := [StepComplete(hi, step, if hi > lo then hi - lo else 0, |rounds|)];
    assert kept + end == full + end <==> kept == full by {
      assert (kept + end)[..|rounds|] == kept && (full + end)[..|rounds|] == full;
    }
  }

  // ------------------------------------------------------------ reported time

  lemma {:induction false} BufferWasTaken(h: History, kind: Kind)
    ensures forall r :: r in Buffered(h, kind) ==> r in Taken(h, kind)
  {
    if h.Then? {
      BufferWasTaken(h.before, kind);
    }
  }

  lemma {:induction false} TotalTimeSnoc(codes: seq<Record>, c: Record)
    ensures TotalTime(codes + [c]) == TotalTime(codes) + Duration(c)
  {
    if codes == [] {
      assert codes + [c] == [c];
    } else {
      assert (codes + [c])[1..] == codes[1..] + [c];
      TotalTimeSnoc(codes[1..], c);
    }
  }

  /** Every turn was reported with tidy rounds. */
  predicate TidyTurns(h: History) {
    match h
    case Start => true
    case Then(before, e) => TidyTurns(before) && (e.Ended? ==> Tidy(RoundsOf(Buffered(before, Call), e.lo, e.hi), e.hi))
  }

  /** Calls that do not end before they begin make every turn tidy. */
  lemma {:induction false} ForwardCallsAreTidy(h: History)
    requires Forward(Taken(h, Call))
    ensures TidyTurns(h)
  {
    if h.Then? {
      assert forall r :: r in Taken(h.before, Call) ==> r in Taken(h, Call);
      ForwardCallsAreTidy(h.before);
      if h.last.Ended? {
        BufferWasTaken(h.before, Call);
        ForwardTurnIsTidy(Buffered(h.before, Call), h.last.lo, h.last.hi);
      }
    }
  }

  /**
  Over a whole run of tidy turns, reported in any order and overlapping in any
  way, the code time reported is never more than the code time taken in.
  */
  lemma {:induction false} ReportedAtMostTaken(h: History)
    requires TidyTurns(h)
    ensures Reported(h) + TotalTime(Buffered(h, Cell)) <= TotalTime(Taken(h, Cell))
  {
    if h.Then? {
      var calls, codes := Buffered(h.before, Call), Buffered(h.before, Cell);
      ReportedAtMostTaken(h.before);
      match h.last
      case Ended(step, lo, hi) =>
        TurnTimeIsCovered(calls, codes, lo, hi);
        ReportedByTurn(calls, codes, step, lo, hi);
      case Took(sp, _) =>
        TotalTimeSnoc(codes, RecordOf(sp));
        TotalTimeSnoc(Taken(h.before, Cell), RecordOf(sp));
    }
  }

  /** The loop over the rounds of a turn. */
  method ReportRounds(rounds: seq<Record>, cells: seq<Record>, step: int, hi: int) returns (events: seq<Event>)
    ensures events == RoundEvents(rounds, cells, step, hi)
  {
    events := [];
    for i := 0 to |rounds|
      invariant events == RoundEvents(rounds, cells, step, hi)[..i]
    {
      events := events + [RoundEvent(rounds, cells, step, hi, i)];
    }
  }

  /** The report of a turn: its rounds, then the turn itself. */
  method ReportTurn(calls: seq<Record>, codes: seq<Record>, step: int, lo: int, hi: int) returns (events: seq<Event>)
    ensures events == TurnEvents(calls, codes, step, lo, hi)
  {
    var rounds := RoundsOf(calls, lo, hi);
    events := ReportRounds(rounds, CellsOf(codes, lo, hi), step, hi);
    events := events + [StepComplete(hi, step, if hi > lo then hi - lo else 0, |rounds|)];
  }

  /** The events of one model call: the prompt, when it is to be shown, and the call. */
  function CallEvents(sp: Span, stamp: Stamp, prompt: bool): seq<Event> {
    var call := LlmCall(StartOf(sp), stamp, Duration(RecordOf(sp)));
    if prompt then [SystemPrompt(StartOf(sp), stamp.step), UserMessage(StartOf(sp), stamp.step), call] else [call]
  }

  lemma OneStampPerCall(sp: Span, stamp: Stamp, prompt: bool, kind: Kind)
    ensures StampsIn(CallEvents(sp, stamp, prompt), kind) == if kind == Call then [stamp] else []
    ensures ReportedTime(CallEvents(sp, stamp, prompt)) == 0
  {
    var events := CallEvents(sp, stamp, prompt);
    if prompt {
      var shown := events[..2];
      assert StampsIn(shown[..1], kind) == [] == StampsIn(shown, kind);
      assert ReportedTime(shown[..1]) == 0 == ReportedTime(shown);
    }
  }

  lemma {:induction false} StampsJoin(a: seq<Event>, b: seq<Event>, kind: Kind)
    ensures StampsIn(a + b, kind) == StampsIn(a, kind) + StampsIn(b, kind)
    ensures ReportedTime(a + b) == ReportedTime(a) + ReportedTime(b)
  {
    if b == [] {
      assert a + b == a;
    } else {
      assert (a + b)[..|a + b| - 1] == a + b[..|b| - 1];
      StampsJoin(a, b[..|b| - 1], kind);
    }
  }

  /** The prompt has been shown: a model call with a system message was taken in. */
  predicate PromptShown(h: History) {
    h.Then? && (PromptShown(h.before) || (Takes(h.last, Call) && h.last.span.hasSystem))
  }

  /** What is reported when this happens after `h`. */
  function EventsOf(h: History, e: Entry): seq<Event> {
    if e.Ended? then TurnEvents(Buffered(h, Call), Buffered(h, Cell), e.step, e.lo, e.hi)
    else if Takes(e, Call) then
      CallEvents(e.span, Stamp(e.step, Tally(CountersOf(h, Call), e.step)), e.span.hasSystem && !PromptShown(h))
    else if Takes(e, Cell) then
      [ReplExecute(StartOf(e.span), Stamp(e.step, Tally(CountersOf(h, Cell), e.step)), Duration(RecordOf(e.span)))]
    else []
  }

  /** Everything reported over a history, in the order in which it was made. */
  function HistoryEvents(h: History): seq<Event> {
    match h
    case Start => []
    case Then(before, e) => HistoryEvents(before) + EventsOf(before, e)
  }

  /** A model call with input messages is reported by its own event, after the prompt when
      it is the first with a system message; it is numbered by the calls of its step before
      it, and a call that ends before it begins took no time. */
  lemma CallReported(h: History, sp: Span, step: int)
    requires sp.name.LlmSpan? && sp.hasInput
    ensures var events, start := EventsOf(h, Took(sp, step)), if sp.start.Some? then sp.start.value else 0;
      var end := if sp.end.Some? && sp.end.value != 0 then sp.end.value else start;
      var call := LlmCall(start, Stamp(step, multiset(StepsOf(h, Call))[step]), if end > start then end - start else 0);
      events == (if sp.hasSystem && !PromptShown(h) then [SystemPrompt(start, step), UserMessage(start, step)] else []) + [call]
  {
    CountersTally(h, Call);
  }

  /** A code cell is reported by one event, numbered by the cells of its step before it. */
  lemma CellReported(h: History, sp: Span, step: int)
    requires sp.name.CodeSpan?
    ensures var start := if sp.start.Some? then sp.start.value else 0;
      var end := if sp.end.Some? && sp.end.value != 0 then sp.end.value else start;
      EventsOf(h, Took(sp, step))
        == [ReplExecute(start, Stamp(step, multiset(StepsOf(h, Cell))[step]), if end > start then end - start else 0)]
  {
    CountersTally(h, Cell);
  }

  /** A span of any other kind, or a model call without input messages, is not reported. */
  lemma OthersNotReported(h: History, sp: Span, step: int)
    requires !sp.name.CodeSpan? && !(sp.name.LlmSpan? && sp.hasInput)
    ensures EventsOf(h, Took(sp, step)) == []
  {
  }

  /** The prompt counts as shown once a model call with input and a system message was taken in. */
  lemma PromptShownIff(h: History)
    ensures h.Then? ==>
      var first := h.last.Took? && h.last.span.name.LlmSpan? && h.last.span.hasInput && h.last.span.hasSystem;
      (PromptShown(h) <==> PromptShown(h.before) || first)
    ensures h.Start? ==> !PromptShown(h)
  {
  }

  /** What a span leaves in the buffers: a model call its times, as a round exactly if it has
      tools and a system message; a code cell its times. */
  lemma SpanBuffered(h: History, sp: Span, step: int)
    ensures var start := if sp.start.Some? then sp.start.value else 0;
      var end := if sp.end.Some? && sp.end.value != 0 then sp.end.value else start;
      && Buffered(Then(h, Took(sp, step)), Call)
         == Buffered(h, Call) + (if sp.name.LlmSpan? && sp.hasInput then [Record(start, end, sp.hasTools && sp.hasSystem)] else [])
      && Buffered(Then(h, Took(sp, step)), Cell)
         == Buffered(h, Cell) + (if sp.name.CodeSpan? then [Record(start, end, false)] else [])
  {
  }

  /** The report of one round: its position, the time of its call, and that of the code
      cells of the turn between its end and the next round. */
  predicate RoundShown(e: Event, rounds: seq<Record>, codes: seq<Record>, step: int, lo: int, hi: int, i: nat)
    requires i < |rounds|
  {
    var r, next := rounds[i], if i + 1 < |rounds| then rounds[i + 1].start else hi;
    e == RoundComplete(r.start, step, i, if r.end > r.start then r.end - r.start else 0,
                       CodeTime(codes, if r.end < lo then lo else r.end, next))
  }

  lemma RoundReported(calls: seq<Record>, codes: seq<Record>, step: int, lo: int, hi: int, i: nat)
    requires i < |RoundsOf(calls, lo, hi)|
    ensures var rounds := RoundsOf(calls, lo, hi);
      RoundShown(RoundEvent(rounds, CellsOf(codes, lo, hi), step, hi, i), rounds, codes, step, lo, hi, i)
  {
    var rounds := RoundsOf(calls, lo, hi);
    RoundsOfTurn(calls, lo, hi);
    assert rounds[i] in rounds;
    if i + 1 < |rounds| { assert rounds[i + 1] in rounds; }
    CellsCodeTime(codes, lo, hi, rounds[i].end, NextStart(rounds, i, hi));
  }

  /** What a turn reports: one event for each round in order of start, then the turn itself. */
  lemma TurnReported(calls: seq<Record>, codes: seq<Record>, step: int, lo: int, hi: int)
    ensures var rounds, events := RoundsOf(calls, lo, hi), TurnEvents(calls, codes, step, lo, hi);
      && |events| == |rounds| + 1
      && events[|rounds|] == StepComplete(hi, step, if hi > lo then hi - lo else 0, |rounds|)
      && forall i :: 0 <= i < |rounds| ==> RoundShown(events[i], rounds, codes, step, lo, hi, i)
  {
    var rounds, events := RoundsOf(calls, lo, hi), TurnEvents(calls, codes, step, lo, hi);
    forall i | 0 <= i < |rounds| ensures RoundShown(events[i], rounds, codes, step, lo, hi, i) {
      RoundReported(calls, codes, step, lo, hi, i);
    }
  }

  /** Code time adds up over cells; a cell counts its own time if it begins in the window. */
  lemma {:induction false} CodeTimeAdds(a: seq<Record>, b: seq<Record>, cell: Record, lo: int, hi: int)
    ensures CodeTime(a + b, lo, hi) == CodeTime(a, lo, hi) + CodeTime(b, lo, hi)
    ensures CodeTime([cell], lo, hi) == if lo <= cell.start < hi && cell.end > cell.start then cell.end - cell.start else 0
  {
    OneCell(cell, lo, hi);
    if a == [] {
      assert a + b == b;
    } else {
      assert (a + b)[1..] == a[1..] + b;
      CodeTimeAdds(a[1..], b, cell, lo, hi);
    }
  }

  lemma {:induction false} NoStampsInRounds(rounds: seq<Record>, cells: seq<Record>, step: int, hi: int, n: nat, kind: Kind)
    requires n <= |rounds|
    ensures StampsIn(RoundEvents(rounds, cells, step, hi)[..n], kind) == []
  {
    if n > 0 {
      var events := RoundEvents(rounds, cells, step, hi);
      assert events[..n][..n - 1] == events[..n - 1];
      NoStampsInRounds(rounds, cells, step, hi, n - 1, kind);
    }
  }

  /** One entry adds one number if it takes in a span of the kind, and none otherwise. */
  lemma EntryStamps(h: History, e: Entry, kind: Kind)
    ensures StampsIn(EventsOf(h, e), kind)
         == if Takes(e, kind) then [Stamp(e.step, Tally(CountersOf(h, kind), e.step))] else []
  {
    var events := EventsOf(h, e);
    if e.Ended? {
      var rounds, cells := RoundsOf(Buffered(h, Call), e.lo, e.hi), CellsOf(Buffered(h, Cell), e.lo, e.hi);
      NoStampsInRounds(rounds, cells, e.step, e.hi, |rounds|, kind);
      assert events[..|events| - 1] == RoundEvents(rounds, cells, e.step, e.hi)[..|rounds|];
    } else if Takes(e, Call) {
      OneStampPerCall(e.span, Stamp(e.step, Tally(CountersOf(h, Call), e.step)), e.span.hasSystem && !PromptShown(h), kind);
    } else if Takes(e, Cell) {
      assert events[..|events| - 1] == [];
      assert StampsIn([], kind) == [];
    }
  }

  lemma EntryTime(h: History, e: Entry)
    ensures ReportedTime(EventsOf(h, e)) == Reported(Then(h, e)) - Reported(h)
  {
    if e.Took? {
      var events := EventsOf(h, e);
      if Takes(e, Call) {
        OneStampPerCall(e.span, Stamp(e.step, Tally(CountersOf(h, Call), e.step)), e.span.hasSystem && !PromptShown(h), Call);
      } else if Takes(e, Cell) {
        assert events[..|events| - 1] == [];
        assert ReportedTime([]) == 0;
      }
    }
  }

  /**
  Over any history, the model calls reported carry the numbers of their steps in
  order, and so do the code cells, and the code time reported is the turns' own.
  */
  lemma {:induction false} HistoryNumbers(h: History, kind: Kind)
    ensures StampsIn(HistoryEvents(h), kind) == Stamps(StepsOf(h, kind))
    ensures ReportedTime(HistoryEvents(h)) == Reported(h)
  {
    if h.Then? {
      HistoryNumbers(h.before, kind);
      StampsJoin(HistoryEvents(h.before), EventsOf(h.before, h.last), kind);
      EntryStamps(h.before, h.last, kind);
      EntryTime(h.before, h.last);
      CountersTally(h.before, kind);
      if h.last.Took? { CounterNumbersNext(CountersOf(h.before, kind), StepsOf(h.before, kind), h.last.step); }
    }
  }

  // -------------------------------------------------------- whole batches

  /** A span that leaves a trace in the exporter when it is taken in. */
  predicate Tracked(sp: Span) {
    Counted(sp) || IsCode(sp)
  }

  /** The first phase over unseen spans: calls and cells are taken in, in order. */
  function TakeAll(h: History, spans: seq<Span>, log: seq<Line>): History
    decreases spans
  {
    if spans == [] then h
    else
      TakeAll(if Tracked(spans[0]) then Then(h, Took(spans[0], StepFor(log, StartOf(spans[0])))) else h, spans[1..], log)
  }

  /** The spans kept for the second phase. */
  function Handles(spans: seq<Span>): seq<Span> {
    if spans == [] then []
    else if spans[0].name.HandleSpan? then [spans[0]] + Handles(spans[1..])
    else Handles(spans[1..])
  }

  /** The second phase: the turns are reported, in order. */
  function EndAll(h: History, turns: seq<Span>, log: seq<Line>): History
    decreases turns
  {
    if turns == [] then h
    else EndAll(Then(h, Ended(StepFor(log, StartOf(turns[0])), StartOf(turns[0]), EndOf(turns[0]))), turns[1..], log)
  }

  /** What a batch does: both phases over the spans not seen before. */
  function AfterBatch(h: History, b: Batch, seen: set<(int, int)>): History {
    var unseen := Fresh(b.spans, seen);
    EndAll(TakeAll(h, unseen, b.log), Handles(unseen), b.log)
  }

  function AfterBatches(h: History, batches: seq<Batch>, seen: set<(int, int)>): History
    decreases batches
  {
    if batches == [] then h
    else AfterBatches(AfterBatch(h, batches[0], seen), batches[1..], SeenAfter(batches[0].spans, seen))
  }

  lemma {:induction false} TakeAllSteps(h: History, spans: seq<Span>, log: seq<Line>)
    ensures StepsOf(TakeAll(h, spans, log), Call) == StepsOf(h, Call) + Steps(spans, log)
    decreases spans
  {
    if spans != [] {
      var sp := spans[0];
      var next := if Tracked(sp) then Then(h, Took(sp, StepFor(log, StartOf(sp)))) else h;
      TakeAllSteps(next, spans[1..], log);
      var head := if Counted(sp) then [StepFor(log, StartOf(sp))] else [];
      assert StepsOf(next, Call) == StepsOf(h, Call) + head;
      assert (StepsOf(h, Call) + head) + Steps(spans[1..], log) == StepsOf(h, Call) + (head + Steps(spans[1..], log));
    }
  }

  lemma {:induction false} EndAllSteps(h: History, turns: seq<Span>, log: seq<Line>)
    ensures StepsOf(EndAll(h, turns, log), Call) == StepsOf(h, Call)
    decreases turns
  {
    if turns != [] {
      EndAllSteps(Then(h, Ended(StepFor(log, StartOf(turns[0])), StartOf(turns[0]), EndOf(turns[0]))), turns[1..], log);
    }
  }

  lemma {:induction false} BatchesSteps(h: History, batches: seq<Batch>, seen: set<(int, int)>)
    ensures StepsOf(AfterBatches(h, batches, seen), Call) == StepsOf(h, Call) + EventSteps(batches, seen)
    decreases batches
  {
    if batches != [] {
      var b := batches[0];
      var unseen := Fresh(b.spans, seen);
      TakeAllSteps(h, unseen, b.log);
      EndAllSteps(TakeAll(h, unseen, b.log), Handles(unseen), b.log);
      BatchesSteps(AfterBatch(h, b, seen), batches[1..], SeenAfter(b.spans, seen));
      var rest := EventSteps(batches[1..], SeenAfter(b.spans, seen));
      assert (StepsOf(h, Call) + Steps(unseen, b.log)) + rest == StepsOf(h, Call) + (Steps(unseen, b.log) + rest);
    }
  }

  /**
  The exporters stay in lockstep over whole runs: fed the same spans in batches
  of their own, with the log read whenever each batch comes, they number the
  calls alike exactly when no call is delivered to them again.
  */
  lemma ExportersAgreeIff(messages: seq<Batch>, events: seq<Batch>, final: seq<Line>)
    requires AllSpans(messages) == AllSpans(events)
    requires forall b :: b in messages + events ==> Settled(b, final)
    ensures Stamps(MessageSteps(messages)) == StampsIn(HistoryEvents(AfterBatches(Start, events, {})), Call)
      <==> OnceEach(AllSpans(messages), {})
  {
    HistoryNumbers(AfterBatches(Start, events, {}), Call);
    BatchesSteps(Start, events, {});
    LockstepIff(messages, events, final);
  }

  /** One step of the first phase: the span at `k` is dropped or comes before the rest. */
  lemma NextUnseen(spans: seq<Span>, k: nat, seen: set<(int, int)>)
    requires k < |spans|
    ensures var next := if spans[k].key.Some? then seen + {spans[k].key.value} else seen;
      && (Known(spans[k], seen) ==> next == seen)
      && SeenAfter(spans[k..], seen) == SeenAfter(spans[k + 1..], next)
      && Fresh(spans[k..], seen) ==
           if Known(spans[k], seen) then Fresh(spans[k + 1..], seen) else [spans[k]] + Fresh(spans[k + 1..], next)
  {
    assert spans[k..][1..] == spans[k + 1..];
  }

  lemma TakeFirst(h: History, sp: Span, rest: seq<Span>, log: seq<Line>)
    ensures TakeAll(h, [sp] + rest, log)
         == TakeAll(if Tracked(sp) then Then(h, Took(sp, StepFor(log, StartOf(sp)))) else h, rest, log)
    ensures Handles([sp] + rest) == if sp.name.HandleSpan? then [sp] + Handles(rest) else Handles(rest)
  {
    assert ([sp] + rest)[1..] == rest;
  }

  /** Part way through the first phase: what has been done and what is left make the whole. */
  ghost predicate Midway(h0: History, seen0: set<(int, int)>, spans: seq<Span>, log: seq<Line>,
                         k: nat, h: History, seen: set<(int, int)>, turns: seq<Span>)
    requires k <= |spans|
  {
    && SeenAfter(spans[k..], seen) == SeenAfter(spans, seen0)
    && TakeAll(h, Fresh(spans[k..], seen), log) == TakeAll(h0, Fresh(spans, seen0), log)
    && turns + Handles(Fresh(spans[k..], seen)) == Handles(Fresh(spans, seen0))
  }

  lemma MidwayStep(h0: History, seen0: set<(int, int)>, spans: seq<Span>, log: seq<Line>,
                   k: nat, h: History, seen: set<(int, int)>, turns: seq<Span>)
    requires k < |spans| && Midway(h0, seen0, spans, log, k, h, seen, turns)
    ensures Known(spans[k], seen) ==> Midway(h0, seen0, spans, log, k + 1, h, seen, turns)
    ensures var sp := spans[k];
      !Known(sp, seen) ==>
        Midway(h0, seen0, spans, log, k + 1,
               if Tracked(sp) then Then(h, Took(sp, StepFor(log, StartOf(sp)))) else h,
               if sp.key.Some? then seen + {sp.key.value} else seen,
               if sp.name.HandleSpan? then turns + [sp] else turns)
  {
    var sp := spans[k];
    NextUnseen(spans, k, seen);
    if !Known(sp, seen) {
      var rest := Fresh(spans[k + 1..], if sp.key.Some? then seen + {sp.key.value} else seen);
      TakeFirst(h, sp, rest, log);
      Regroup(turns, [sp], Handles(rest));
    }
  }

  /** These events are what the history has come to report. */
  ghost predicate Adds(before: History, events: seq<Event>, after: History) {
    HistoryEvents(after) == HistoryEvents(before) + events
  }

  lemma AddsNothing(h: History)
    ensures Adds(h, [], h)
  {
  }

  lemma AddsJoin(a: History, x: seq<Event>, b: History, y: seq<Event>, c: History)
    requires Adds(a, x, b) && Adds(b, y, c)
    ensures Adds(a, x + y, c)
  {
    Regroup(HistoryEvents(a), x, y);
  }

  /** Turns spans into events; `history` records what has happened to it. */
  class EventExporter {
    var rounds: map<int, nat>
    var blocks: map<int, nat>
    var seen: set<(int, int)>
    var calls: seq<Record>
    var codes: seq<Record>
    var promptEmitted: bool
    ghost var history: History

    ghost predicate Valid()
      reads this
    {
      && rounds == CountersOf(history, Call)
      && blocks == CountersOf(history, Cell)
      && calls == Buffered(history, Call)
      && codes == Buffered(history, Cell)
      && promptEmitted == PromptShown(history)
    }

    constructor ()
      ensures Valid() && history == Start && seen == {} && !promptEmitted
    {
      rounds, blocks, seen, calls, codes, promptEmitted := map[], map[], {}, [], [], false;
      history := Start;
    }

    /** Numbers and buffers a model call; the first one with a system message also shows the prompt. */
    method HandleLlm(sp: Span, log: seq<Line>) returns (events: seq<Event>)
      requires Valid() && Counted(sp)
      modifies `rounds, `calls, `promptEmitted, `history
      ensures Valid()
      ensures history == Then(old(history), Took(sp, StepFor(log, StartOf(sp))))
      ensures events == EventsOf(old(history), history.last)
    {
      var step := FindStep(log, StartOf(sp));
      var round := Tally(rounds, step);
      history := Then(history, Took(sp, step));
      rounds := rounds[step := round + 1];
      calls := calls + [RecordOf(sp)];
      var first := !promptEmitted && sp.hasSystem;
      if first {
        promptEmitted := true;
      }
      events := CallEvents(sp, Stamp(step, round), first);
    }

    /** Numbers and buffers a code cell. */
    method HandleCode(sp: Span, log: seq<Line>) returns (events: seq<Event>)
      requires Valid() && IsCode(sp)
      modifies `blocks, `codes, `history
      ensures Valid()
      ensures history == Then(old(history), Took(sp, StepFor(log, StartOf(sp))))
      ensures events == EventsOf(old(history), history.last)
    {
      var step := FindStep(log, StartOf(sp));
      var block := Tally(blocks, step);
      history := Then(history, Took(sp, step));
      blocks := blocks[step := block + 1];
      codes := codes + [RecordOf(sp)];
      events := [ReplExecute(StartOf(sp), Stamp(step, block), Duration(RecordOf(sp)))];
    }

    /** Reports a finished turn and drops the buffered spans that began before its end. */
    method HandleTurn(sp: Span, log: seq<Line>) returns (events: seq<Event>)
      requires Valid()
      modifies `calls, `codes, `history
      ensures Valid()
      ensures history == Then(old(history), Ended(StepFor(log, StartOf(sp)), StartOf(sp), EndOf(sp)))
      ensures events == EventsOf(old(history), history.last)
    {
      var step := FindStep(log, StartOf(sp));
      var lo, hi := StartOf(sp), EndOf(sp);
      events := ReportTurn(calls, codes, step, lo, hi);
      history := Then(history, Ended(step, lo, hi));
      calls, codes := From(calls, hi), From(codes, hi);
    }

    /** Takes in one unseen span, unless it is a turn. */
    method TakeSpan(sp: Span, log: seq<Line>) returns (events: seq<Event>)
      requires Valid()
      modifies `rounds, `blocks, `calls, `codes, `promptEmitted, `history
      ensures Valid()
      ensures history == if Tracked(sp) then Then(old(history), Took(sp, StepFor(log, StartOf(sp)))) else old(history)
      ensures Adds(old(history), events, history)
    {
      if Counted(sp) {
        events := HandleLlm(sp, log);
      } else if IsCode(sp) {
        events := HandleCode(sp, log);
      } else {
        events := [];
        AddsNothing(history);
      }
    }

    /** The first phase: unseen calls and cells are taken in and turns are put aside. */
    method Collect(spans: seq<Span>, log: seq<Line>) returns (pending: seq<Event>, turns: seq<Span>)
      requires Valid()
      modifies this
      ensures Valid()
      ensures seen == SeenAfter(spans, old(seen))
      ensures history == TakeAll(old(history), Fresh(spans, old(seen)), log)
      ensures turns == Handles(Fresh(spans, old(seen)))
      ensures Adds(old(history), pending, history)
    {
      pending, turns := [], [];
      AddsNothing(history);
      for k := 0 to |spans|
        invariant Valid()
        invariant Midway(old(history), old(seen), spans, log, k, history, seen, turns)
        invariant Adds(old(history), pending, history)
      {
        var sp := spans[k];
        MidwayStep(old(history), old(seen), spans, log, k, history, seen, turns);
        if Known(sp, seen) {
          continue;
        }
        if sp.key.Some? {
          seen := seen + {sp.key.value};
        }
        if sp.name.HandleSpan? {
          turns := turns + [sp];
          continue;
        }
        ghost var before := history;
        var events := TakeSpan(sp, log);
        AddsJoin(old(history), pending, before, events, history);
        pending := pending + events;
      }
    }

    /**
    Takes in a batch and gives the lines to append, in order of time. `pending`
    is the same events in the order they were made.
    */
    method Export(spans: seq<Span>, log: seq<Line>) returns (lines: seq<Event>, ghost pending: seq<Event>)
      requires Valid()
      modifies this
      ensures Valid()
      ensures seen == SeenAfter(spans, old(seen))
      ensures history == AfterBatch(old(history), Batch(spans, log), old(seen))
      ensures Adds(old(history), pending, history)
      ensures multiset(lines) == multiset(pending) && InOrder(TimeKey, lines)
    {
      var turns;
      lines, turns := Collect(spans, log);
      ghost var target := EndAll(history, turns, log);
      for k := 0 to |turns|
        invariant Valid() && seen == SeenAfter(spans, old(seen))
        invariant EndAll(history, turns[k..], log) == target
        invariant Adds(old(history), lines, history)
      {
        assert turns[k..][1..] == turns[k + 1..];
        ghost var before := history;
        var events := HandleTurn(turns[k], log);
        AddsJoin(old(history), lines, before, events, history);
        lines := lines + events;
      }
      pending := lines;
      SortedInOrder(TimeKey, lines);
      lines := SortBy(TimeKey, lines);
    }
  }
}
