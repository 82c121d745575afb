/**
Immutable assistant turns: freezing JSON values, the public projection of a
response, edits that must not change it, and the recovery of original turns
from a public message list.
*/
module Turns {
  import opened Wrappers

  // ------------------------------------------------------------ freezing

  /** A dictionary key: a string, or any other hashable object. */
  datatype Key = Name(name: string) | OtherKey(id: int)

  /** A Python value. `Frozen` is the immutable mapping that freezing produces. */
  datatype Py =
    | PNone
    | PBool(b: bool)
    | PInt(i: int)
    | PFloat(r: real)
    | PNonFinite
    | PStr(s: string)
    | PList(items: seq<Py>)
    | PTuple(items: seq<Py>)
    | PDict(entries: map<Key, Py>)
    | PFrozen(fields: map<string, Py>)
    | PObject(id: int)

  predicate Scalar(v: Py) {
    v.PNone? || v.PBool? || v.PInt? || v.PFloat? || v.PStr?
  }

  /** The keys of a dictionary that are strings. */
  function Names(entries: map<Key, Py>): (names: set<string>)
    ensures forall n :: n in names <==> Name(n) in entries
  {
    set k | k in entries && k.Name? :: k.name
  }

  /** The string keys of a mapping, as dictionary keys. */
  function Keys(fields: map<string, Py>): (keys: set<Key>)
    ensures forall k :: k in keys <==> k.Name? && k.name in fields
  {
    set n | n in fields :: Name(n)
  }

  /** Freezing, or nothing where `freeze` raises. */
  function Freeze(v: Py): Option<Py> {
    match v
    case PFrozen(_) => Some(v)
    case PDict(entries) =>
      if forall k :: k in entries ==> k.Name? && Freeze(entries[k]).Some? then
        Some(PFrozen(map n | n in Names(entries) :: Freeze(entries[Name(n)]).value))
      else None
    case PList(items) =>
      if forall i :: 0 <= i < |items| ==> Freeze(items[i]).Some? then
        Some(PTuple(seq(|items|, i requires 0 <= i < |items| => Freeze(items[i]).value)))
      else None
    case PTuple(items) =>
      if forall i :: 0 <= i < |items| ==> Freeze(items[i]).Some? then
        Some(PTuple(seq(|items|, i requires 0 <= i < |items| => Freeze(items[i]).value)))
      else None
    case _ => if Scalar(v) then Some(v) else None
  }

  /** Fresh containers for the wire; lists are taken as they are. */
  function Thaw(v: Py): Py {
    match v
    case PDict(entries) => PDict(map k | k in entries :: Thaw(entries[k]))
    case PFrozen(fields) => PDict(map k | k in Keys(fields) :: Thaw(fields[k.name]))
    case PTuple(items) => PList(seq(|items|, i requires 0 <= i < |items| => Thaw(items[i])))
    case _ => v
  }

  /** Values that freezing makes: immutable all the way down. */
  predicate IsFrozen(v: Py) {
    match v
    case PTuple(items) => forall i :: 0 <= i < |items| ==> IsFrozen(items[i])
    case PFrozen(fields) => forall k :: k in fields ==> IsFrozen(fields[k])
    case _ => Scalar(v)
  }

  /** A frozen mapping inside the value was made by freezing. */
  predicate WellMade(v: Py) {
    match v
    case PList(items) => forall i :: 0 <= i < |items| ==> WellMade(items[i])
    case PTuple(items) => forall i :: 0 <= i < |items| ==> WellMade(items[i])
    case PDict(entries) => forall k :: k in entries ==> WellMade(entries[k])
    case PFrozen(_) => IsFrozen(v)
    case _ => true
  }

  /** JSON, as section 6 of RFC 8259 limits numbers: string keys and finite numbers only. */
  predicate IsJson(v: Py) {
    match v
    case PList(items) => forall i :: 0 <= i < |items| ==> IsJson(items[i])
    case PTuple(items) => forall i :: 0 <= i < |items| ==> IsJson(items[i])
    case PDict(entries) => forall k :: k in entries ==> k.Name? && IsJson(entries[k])
    case PFrozen(_) => true
    case _ => Scalar(v)
  }

  /** The value with every tuple read as a list and every frozen mapping as a dictionary. */
  function Plainly(v: Py): Py {
    match v
    case PList(items) => PList(seq(|items|, i requires 0 <= i < |items| => Plainly(items[i])))
    case PTuple(items) => PList(seq(|items|, i requires 0 <= i < |items| => Plainly(items[i])))
    case PDict(entries) => PDict(map k | k in entries :: Plainly(entries[k]))
    case PFrozen(fields) => PDict(map k | k in Keys(fields) :: Plainly(fields[k.name]))
    case _ => v
  }

  /** Freezing succeeds exactly on JSON. */
  lemma {:induction false} FreezeSucceedsIff(v: Py)
    ensures Freeze(v).Some? <==> IsJson(v)
  {
    match v
    case PList(items) => forall i | 0 <= i < |items| { FreezeSucceedsIff(items[i]); }
    case PTuple(items) => forall i | 0 <= i < |items| { FreezeSucceedsIff(items[i]); }
    case PDict(entries) =>
      forall k | k in entries ensures Freeze(entries[k]).Some? <==> IsJson(entries[k]) {
        FreezeSucceedsIff(entries[k]);
      }
    case _ =>
  }

  /** Freezing, value by value: scalars and frozen mappings are themselves, a list or
      tuple is the tuple of its frozen elements, a dictionary with string keys the frozen
      mapping of its frozen values; numbers that are not finite and other objects have none. */
  lemma FreezeByKind(v: Py)
    ensures v.PNone? || v.PBool? || v.PInt? || v.PFloat? || v.PStr? || v.PFrozen? ==> Freeze(v) == Some(v)
    ensures v == PNonFinite || v.PObject? ==> Freeze(v) == None
    ensures v.PList? || v.PTuple? ==>
      (forall i :: 0 <= i < |v.items| ==> Freeze(v.items[i]).Some?) ==>
        Freeze(v).Some? && Freeze(v).value.PTuple? && |Freeze(v).value.items| == |v.items|
        && forall i :: 0 <= i < |v.items| ==> Freeze(v.items[i]) == Some(Freeze(v).value.items[i])
    ensures v.PDict? && (forall k :: k in v.entries ==> k.Name? && Freeze(v.entries[k]).Some?) ==>
      Freeze(v).Some? && Freeze(v).value.PFrozen?
      && (forall k :: k in v.entries ==> k.name in Freeze(v).value.fields && Freeze(v.entries[k]) == Some(Freeze(v).value.fields[k.name]))
      && forall n :: n in Freeze(v).value.fields ==> Name(n) in v.entries
    ensures v.PDict? && (exists k :: k in v.entries && (k.OtherKey? || Freeze(v.entries[k]).None?)) ==> Freeze(v) == None
    ensures (v.PList? || v.PTuple?) && (exists i :: 0 <= i < |v.items| && Freeze(v.items[i]).None?) ==> Freeze(v) == None
  {
  }

  /** What freezing makes is immutable all the way down. */
  lemma {:induction false} FreezeFreezes(v: Py)
    requires WellMade(v) && Freeze(v).Some?
    ensures IsFrozen(Freeze(v).value)
  {
    match v
    case PList(items) => forall i | 0 <= i < |items| { FreezeFreezes(items[i]); }
    case PTuple(items) => forall i | 0 <= i < |items| { FreezeFreezes(items[i]); }
    case PDict(entries) =>
      var fields := Freeze(v).value.fields;
      forall n | n in fields ensures IsFrozen(fields[n]) { FreezeFreezes(entries[Name(n)]); }
    case _ =>
  }

  /** Thawing what was frozen gives the input back, tuples read as lists. */
  lemma {:induction false} ThawFreeze(v: Py)
    requires WellMade(v) && Freeze(v).Some?
    ensures Thaw(Freeze(v).value) == Plainly(v)
  {
    match v
    case PList(items) => ThawFreezeItems(v);
    case PTuple(items) => ThawFreezeItems(v);
    case PDict(entries) => ThawFreezeEntries(v);
    case PFrozen(_) => ThawIsPlain(v);
    case _ =>
  }

  lemma {:induction false} ThawFreezeItems(v: Py)
    requires v.PList? || v.PTuple?
    requires WellMade(v) && Freeze(v).Some?
    ensures Thaw(Freeze(v).value) == Plainly(v)
    decreases v, 0
  {
    var thawed, plain := Thaw(Freeze(v).value).items, Plainly(v).items;
    assert |thawed| == |plain| == |v.items|;
    forall i | 0 <= i < |v.items| ensures thawed[i] == plain[i] { ThawFreeze(v.items[i]); }
    assert thawed == plain;
  }

  lemma {:induction false} ThawFreezeEntries(v: Py)
    requires v.PDict? && WellMade(v) && Freeze(v).Some?
    ensures Thaw(Freeze(v).value) == Plainly(v)
    decreases v, 0
  {
    var thawed, plain := Thaw(Freeze(v).value).entries, Plainly(v).entries;
    forall k | k in v.entries ensures k in thawed && thawed[k] == plain[k] { ThawFreeze(v.entries[k]); }
    assert thawed == plain;
  }

  lemma {:induction false} ThawIsPlain(f: Py)
    requires IsFrozen(f)
    ensures Thaw(f) == Plainly(f)
  {
    match f
    case PTuple(items) => forall i | 0 <= i < |items| { ThawIsPlain(items[i]); }
    case PFrozen(fields) =>
      var thawed, plain := Thaw(f).entries, Plainly(f).entries;
      forall k | k in thawed ensures thawed[k] == plain[k] { ThawIsPlain(fields[k.name]); }
      assert thawed == plain;
    case _ =>
  }

  /** Freezing what was thawed gives the frozen value back, and freezing twice is freezing once. */
  lemma {:induction false} FreezeThaw(f: Py)
    requires IsFrozen(f)
    ensures Freeze(Thaw(f)) == Freeze(f) == Some(f)
  {
    match f
    case PTuple(items) => FreezeThawItems(f);
    case PFrozen(fields) => FreezeThawFields(f);
    case _ =>
  }

  lemma {:induction false} FreezeThawItems(f: Py)
    requires f.PTuple? && IsFrozen(f)
    ensures Freeze(Thaw(f)) == Freeze(f) == Some(f)
    decreases f, 0
  {
    var thawed := Thaw(f).items;
    forall i | 0 <= i < |thawed| ensures Freeze(thawed[i]) == Freeze(f.items[i]) == Some(f.items[i]) {
      FreezeThaw(f.items[i]);
    }
    assert Freeze(f).value.items == f.items;
    assert Freeze(Thaw(f)).value.items == f.items;
  }

  lemma {:induction false} FreezeThawFields(f: Py)
    requires f.PFrozen? && IsFrozen(f)
    ensures Freeze(Thaw(f)) == Freeze(f) == Some(f)
    decreases f, 0
  {
    var thawed := Thaw(f).entries;
    forall n | n in f.fields ensures Name(n) in thawed && Freeze(thawed[Name(n)]) == Some(f.fields[n]) {
      FreezeThaw(f.fields[n]);
    }
    assert forall k :: k in thawed ==> k.Name? && Freeze(thawed[k]).Some?;
    var again := Freeze(Thaw(f)).value.fields;
    assert again.Keys == f.fields.Keys;
    assert again == f.fields;
  }

  /** The loop that fills a frozen mapping, giving up at the first bad key or value. */
  method FreezeObject(entries: map<Key, Py>) returns (r: Option<Py>)
    ensures r == Freeze(PDict(entries))
  {
    var frozen: map<string, Py> := map[];
    var left := entries.Keys;
    while left != {}
      invariant left <= entries.Keys
      invariant forall k :: k in entries.Keys - left ==> k.Name? && Freeze(entries[k]).Some?
      invariant forall n :: n in frozen <==> Name(n) in entries.Keys - left
      invariant forall n :: n in frozen ==> Freeze(entries[Name(n)]) == Some(frozen[n])
      decreases left
    {
      var key :| key in left;
      if !key.Name? {
        return None;
      }
      var value := Freeze(entries[key]);
      if value.None? {
        return None;
      }
      frozen := frozen[key.name := value.value];
      left := left - {key};
    }
    r := Some(PFrozen(frozen));
    assert frozen == Freeze(PDict(entries)).value.fields;
  }

  // ----------------------------------------------------------- responses

  /** Tool arguments: the model's own text, or a dictionary with the text its dump gives. */
  datatype Arguments = Exact(text: string) | Structured(text: string)

  /** The public part of a tool call. */
  datatype Call = Call(id: string, name: string, arguments: Arguments)

  /** One part of an assistant turn; `native` is state private to a provider. */
  datatype Part =
    | TextPart(text: string, native: Option<Py>)
    | ReasoningPart(text: string, native: Option<Py>)
    | CallPart(id: string, name: string, arguments: string, native: Option<Py>)

  /**
  A response. `cache` holds the public projection once it has been computed;
  `raw`, `parsed` and `rest` stand for the fields no operation here looks into.
  */
  datatype Response = Response(
    parts: seq<Part>, scope: Option<string>, raw: Option<int>, parsed: Option<int>,
    metadata: map<string, Py>, rest: int, cache: Option<Py>)

  function Content(parts: seq<Part>): string {
    if parts == [] then ""
    else (if parts[0].TextPart? then parts[0].text else "") + Content(parts[1..])
  }

  function ReasoningTexts(parts: seq<Part>): (texts: seq<string>)
    ensures forall t :: t in texts ==> t != ""
  {
    if parts == [] then []
    else (if parts[0].ReasoningPart? && parts[0].text != "" then [parts[0].text] else [])
         + ReasoningTexts(parts[1..])
  }

  function JoinLines(texts: seq<string>): (joined: string)
    ensures texts != [] && texts[0] != "" ==> joined != ""
  {
    if texts == [] then "" else if |texts| == 1 then texts[0] else texts[0] + "\n" + JoinLines(texts[1..])
  }

  function Reasoning(parts: seq<Part>): Option<string> {
    var joined := JoinLines(ReasoningTexts(parts));
    if joined == "" then None else Some(joined)
  }

  function ToolCalls(parts: seq<Part>): (calls: seq<Call>)
    ensures forall c :: c in calls ==> c.arguments.Exact?
  {
    if parts == [] then []
    else (if parts[0].CallPart? then [Call(parts[0].id, parts[0].name, Exact(parts[0].arguments))] else [])
         + ToolCalls(parts[1..])
  }

  /** What one part shows: a text part its text, a reasoning part its text unless it is
      empty, a call part its id, name and exact argument string, and nothing private. */
  lemma OnePart(p: Part)
    ensures Content([p]) == if p.TextPart? then p.text else ""
    ensures ReasoningTexts([p]) == if p.ReasoningPart? && p.text != "" then [p.text] else []
    ensures ToolCalls([p]) == if p.CallPart? then [Call(p.id, p.name, Exact(p.arguments))] else []
  {
    assert [p][1..] == [];
  }

  lemma Regroup<T>(x: seq<T>, y: seq<T>, z: seq<T>)
    ensures x + (y + z) == (x + y) + z
  {
  }

  lemma {:induction false} ContentInOrder(a: seq<Part>, b: seq<Part>)
    ensures Content(a + b) == Content(a) + Content(b)
  {
    if a == [] {
      assert a + b == b;
    } else {
      assert (a + b)[1..] == a[1..] + b;
      ContentInOrder(a[1..], b);
      Regroup(if a[0].TextPart? then a[0].text else "", Content(a[1..]), Content(b));
    }
  }

  lemma {:induction false} ReasoningInOrder(a: seq<Part>, b: seq<Part>)
    ensures ReasoningTexts(a + b) == ReasoningTexts(a) + ReasoningTexts(b)
  {
    if a == [] {
      assert a + b == b;
    } else {
      assert (a + b)[1..] == a[1..] + b;
      ReasoningInOrder(a[1..], b);
      Regroup(if a[0].ReasoningPart? && a[0].text != "" then [a[0].text] else [], ReasoningTexts(a[1..]), ReasoningTexts(b));
    }
  }

  lemma {:induction false} CallsInOrder(a: seq<Part>, b: seq<Part>)
    ensures ToolCalls(a + b) == ToolCalls(a) + ToolCalls(b)
  {
    if a == [] {
      assert a + b == b;
    } else {
      assert (a + b)[1..] == a[1..] + b;
      CallsInOrder(a[1..], b);
      Regroup(if a[0].CallPart? then [Call(a[0].id, a[0].name, Exact(a[0].arguments))] else [], ToolCalls(a[1..]), ToolCalls(b));
    }
  }

  /** A turn shows what its parts show, in order. */
  lemma PartsInOrder(a: seq<Part>, b: seq<Part>)
    ensures Content(a + b) == Content(a) + Content(b)
    ensures ReasoningTexts(a + b) == ReasoningTexts(a) + ReasoningTexts(b)
    ensures ToolCalls(a + b) == ToolCalls(a) + ToolCalls(b)
  {
    ContentInOrder(a, b);
    ReasoningInOrder(a, b);
    CallsInOrder(a, b);
  }

  /** Reasoning texts stand on lines of their own, and there is no reasoning exactly without any. */
  lemma {:induction false} LinesInOrder(xs: seq<string>, ys: seq<string>)
    requires xs != [] && ys != []
    ensures JoinLines(xs + ys) == JoinLines(xs) + "\n" + JoinLines(ys)
  {
    assert (xs + ys)[1..] == xs[1..] + ys;
    if |xs| == 1 {
      assert xs[1..] == [] && xs[1..] + ys == ys;
    } else {
      LinesInOrder(xs[1..], ys);
    }
  }

  lemma ReasoningIff(parts: seq<Part>)
    ensures Reasoning(parts) == if ReasoningTexts(parts) == [] then None else Some(JoinLines(ReasoningTexts(parts)))
    ensures forall t :: JoinLines([t]) == t
  {
    forall t ensures JoinLines([t]) == t { assert |[t]| == 1; }
  }

  // ---------------------------------------------------- the public shape

  function OrEmpty(text: Option<string>): string {
    if text.Some? then text.value else ""
  }

  function CallMessage(call: Call): Py {
    PDict(map[
      Name("id") := PStr(call.id),
      Name("type") := PStr("function"),
      Name("function") := PDict(map[
        Name("name") := PStr(call.name),
        Name("arguments") := PStr(call.arguments.text)])])
  }

  function CallMessages(calls: seq<Call>): (messages: seq<Py>)
    ensures |messages| == |calls|
    ensures forall i :: 0 <= i < |calls| ==> messages[i] == CallMessage(calls[i])
  {
    seq(|calls|, i requires 0 <= i < |calls| => CallMessage(calls[i]))
  }

  /** The fields of the public assistant message: absent text reads as empty text. */
  function AssistantFields(content: Option<string>, calls: seq<Call>, reasoning: Option<string>): map<Key, Py> {
    map[Name("role") := PStr("assistant"), Name("content") := PStr(OrEmpty(content))]
    + (if OrEmpty(reasoning) == "" then map[] else map[Name("reasoning_content") := PStr(reasoning.value)])
    + (if calls == [] then map[] else map[Name("tool_calls") := PList(CallMessages(calls))])
  }

  function AssistantMessage(content: Option<string>, calls: seq<Call>, reasoning: Option<string>): Py {
    PDict(AssistantFields(content, calls, reasoning))
  }

  /** The entry of one tool call, field by field. */
  predicate ShowsCall(entry: Py, call: Call) {
    && entry.PDict? && entry.entries.Keys == {Name("id"), Name("type"), Name("function")}
    && entry.entries[Name("id")] == PStr(call.id)
    && entry.entries[Name("type")] == PStr("function")
    && var function' := entry.entries[Name("function")];
    && function'.PDict? && function'.entries.Keys == {Name("name"), Name("arguments")}
    && function'.entries[Name("name")] == PStr(call.name)
    && function'.entries[Name("arguments")] == PStr(call.arguments.text)
  }

  /** The whole public message, field by field: role and content always, reasoning when
      there is any text of it, and one entry for each tool call, in order, when there are any. */
  predicate ShowsTurn(message: Py, content: Option<string>, calls: seq<Call>, reasoning: Option<string>) {
    && message.PDict?
    && message.entries.Keys ==
         {Name("role"), Name("content")}
         + (if reasoning.Some? && reasoning.value != "" then {Name("reasoning_content")} else {})
         + (if calls != [] then {Name("tool_calls")} else {})
    && message.entries[Name("role")] == PStr("assistant")
    && message.entries[Name("content")] == PStr(if content.Some? then content.value else "")
    && (reasoning.Some? && reasoning.value != "" ==> message.entries[Name("reasoning_content")] == PStr(reasoning.value))
    && (calls != [] ==>
          var shown := message.entries[Name("tool_calls")];
          shown.PList? && |shown.items| == |calls| && forall i :: 0 <= i < |calls| ==> ShowsCall(shown.items[i], calls[i]))
  }

  lemma CallShown(call: Call)
    ensures ShowsCall(CallMessage(call), call)
  {
    assert |"id"| == 2 && |"type"| == 4 && |"function"| == 8 && |"name"| == 4 && |"arguments"| == 9;
    assert "name"[0] == 'n' && "type"[0] == 't';
  }

  /** The public message shows exactly what it is built from, each value under its own name. */
  lemma MessageShowsTurn(content: Option<string>, calls: seq<Call>, reasoning: Option<string>)
    ensures ShowsTurn(AssistantMessage(content, calls, reasoning), content, calls, reasoning)
  {
    FieldsRead(content, calls, reasoning);
    forall i | 0 <= i < |calls| ensures ShowsCall(CallMessages(calls)[i], calls[i]) { CallShown(calls[i]); }
  }

  /** The entries of the calls, one by one. */
  method BuildCalls(calls: seq<Call>) returns (messages: seq<Py>)
    ensures messages == CallMessages(calls)
  {
    messages := [];
    for i := 0 to |calls|
      invariant messages == CallMessages(calls)[..i]
    {
      messages := messages + [CallMessage(calls[i])];
    }
  }

  /** The dictionary as it is built up, key by key. */
  method BuildAssistantMessage(content: Option<string>, calls: seq<Call>, reasoning: Option<string>)
    returns (message: Py)
    ensures message == AssistantMessage(content, calls, reasoning)
    ensures ShowsTurn(message, content, calls, reasoning)
  {
    var fields := map[Name("role") := PStr("assistant"), Name("content") := PStr(OrEmpty(content))];
    if OrEmpty(reasoning) != "" {
      fields := fields[Name("reasoning_content") := PStr(reasoning.value)];
    }
    var messages := BuildCalls(calls);
    if messages != [] {
      fields := fields[Name("tool_calls") := PList(messages)];
    }
    message := PDict(fields);
    assert fields == AssistantFields(content, calls, reasoning);
    MessageShowsTurn(content, calls, reasoning);
  }

  /** A message of words: strings, lists and dictionaries, and no number among them. */
  predicate Wordy(v: Py) {
    match v
    case PStr(_) => true
    case PList(items) => forall i :: 0 <= i < |items| ==> Wordy(items[i])
    case PDict(entries) => forall k :: k in entries ==> k.Name? && Wordy(entries[k])
    case _ => false
  }

  lemma CallMessageWordy(call: Call)
    ensures Wordy(CallMessage(call))
  {
    var inner := CallMessage(call).entries[Name("function")];
    assert Wordy(inner);
  }

  lemma AssistantMessageWordy(content: Option<string>, calls: seq<Call>, reasoning: Option<string>)
    ensures Wordy(AssistantMessage(content, calls, reasoning))
  {
    forall i | 0 <= i < |calls| ensures Wordy(CallMessages(calls)[i]) {
      CallMessageWordy(calls[i]);
    }
    assert Wordy(PList(CallMessages(calls)));
  }

  /** JSON as a parser gives it: scalars, lists, and dictionaries with string keys. */
  predicate AsParsed(v: Py) {
    match v
    case PList(items) => forall i :: 0 <= i < |items| ==> AsParsed(items[i])
    case PDict(entries) => forall k :: k in entries ==> k.Name? && AsParsed(entries[k])
    case _ => Scalar(v)
  }

  lemma {:induction false} WordyParsed(v: Py)
    requires Wordy(v)
    ensures AsParsed(v)
  {
    match v
    case PList(items) => forall i | 0 <= i < |items| { WordyParsed(items[i]); }
    case PDict(entries) => forall k | k in entries ensures AsParsed(entries[k]) { WordyParsed(entries[k]); }
    case _ =>
  }

  lemma {:induction false} ParsedIsPlain(v: Py)
    requires AsParsed(v)
    ensures WellMade(v) && IsJson(v) && Plainly(v) == v
  {
    match v
    case PList(items) =>
      forall i | 0 <= i < |items| { ParsedIsPlain(items[i]); }
      assert Plainly(v).items == items;
    case PDict(entries) =>
      forall k | k in entries ensures WellMade(entries[k]) && IsJson(entries[k]) && Plainly(entries[k]) == entries[k] {
        ParsedIsPlain(entries[k]);
      }
      assert Plainly(v).entries == entries;
    case _ =>
  }

  /** Parsed JSON survives freezing and thawing exactly as it was. */
  lemma ParsedSurvives(v: Py)
    requires AsParsed(v)
    ensures Freeze(v).Some? && Thaw(Freeze(v).value) == v
  {
    ParsedIsPlain(v);
    FreezeSucceedsIff(v);
    ThawFreeze(v);
  }

  /** What a response's parts show to the public. */
  function PublicParts(parts: seq<Part>): Py {
    AssistantMessage(Some(Content(parts)), ToolCalls(parts), Reasoning(parts))
  }

  lemma FrozenPublicParts(parts: seq<Part>)
    ensures Freeze(PublicParts(parts)).Some?
    ensures Thaw(Freeze(PublicParts(parts)).value) == PublicParts(parts)
  {
    AssistantMessageWordy(Some(Content(parts)), ToolCalls(parts), Reasoning(parts));
    WordyParsed(PublicParts(parts));
    ParsedSurvives(PublicParts(parts));
  }

  /** A cached projection is that of the parts it sits beside. */
  predicate CacheFresh(r: Response) {
    r.cache.Some? ==> r.cache == Freeze(PublicParts(r.parts))
  }

  /** The projection, computed once and kept; the message is made from it anew at every call. */
  function PublicMessage(r: Response): (message: Py)
    requires CacheFresh(r)
    ensures message == PublicParts(r.parts)
  {
    FrozenPublicParts(r.parts);
    Thaw(if r.cache.Some? then r.cache.value else Freeze(PublicParts(r.parts)).value)
  }

  // --------------------------------------------------------------- edits

  /** The fields an update names; `flat` when it names content, reasoning or tool_calls. */
  datatype Update = Update(
    flat: bool, parts: Option<seq<Part>>, scope: Option<Option<string>>,
    raw: Option<Option<int>>, parsed: Option<Option<int>>, metadata: Option<map<string, Py>>, rest: Option<int>)

  function Chosen<T>(update: Option<T>, current: T): T {
    if update.Some? then update.value else current
  }

  /** The part without its provider's private state. */
  function Bare(p: Part): Part {
    p.(native := None)
  }

  function BareParts(parts: seq<Part>): (bare: seq<Part>)
    ensures |bare| == |parts|
    ensures forall i :: 0 <= i < |parts| ==> bare[i] == Bare(parts[i])
  {
    seq(|parts|, i requires 0 <= i < |parts| => Bare(parts[i]))
  }

  predicate Portable(parts: seq<Part>) {
    forall i :: 0 <= i < |parts| ==> parts[i].native == None
  }

  /** Copying with an update, or nothing where a flat edit is refused. */
  function ModelCopy(r: Response, u: Update): (copy: Option<Response>)
    ensures copy.None? <==> u.flat
  {
    if u.flat then None
    else if u.parts.Some? || u.scope.Some? then
      Some(Response(BareParts(Chosen(u.parts, r.parts)), None, None, None,
                    Chosen(u.metadata, r.metadata), Chosen(u.rest, r.rest), None))
    else
      Some(r.(raw := Chosen(u.raw, r.raw), parsed := Chosen(u.parsed, r.parsed),
              metadata := Chosen(u.metadata, r.metadata), rest := Chosen(u.rest, r.rest)))
  }

  function PartsUpdate(parts: seq<Part>): Update {
    Update(false, Some(parts), None, None, None, None, None)
  }

  function ReplaceParts(r: Response, parts: seq<Part>): Response {
    ModelCopy(r, PartsUpdate(parts)).value
  }

  function WithoutText(parts: seq<Part>): (kept: seq<Part>) {
    if parts == [] then []
    else if parts[0].TextPart? then WithoutText(parts[1..])
    else [parts[0]] + WithoutText(parts[1..])
  }

  /** The parts with one text at the front in place of all their own. */
  function Retold(parts: seq<Part>, text: string): seq<Part> {
    [TextPart(text, None)] + WithoutText(parts)
  }

  function ReplaceText(r: Response, text: string): Response {
    ReplaceParts(r, Retold(r.parts, text))
  }

  /** Dropping native state changes nothing that is public. */
  lemma {:induction false} BareKeepsPublic(parts: seq<Part>)
    ensures Content(BareParts(parts)) == Content(parts)
    ensures ReasoningTexts(BareParts(parts)) == ReasoningTexts(parts)
    ensures ToolCalls(BareParts(parts)) == ToolCalls(parts)
  {
    if parts != [] {
      BareKeepsPublic(parts[1..]);
      assert BareParts(parts)[1..] == BareParts(parts[1..]);
    }
  }

  lemma BareShowsTheSame(parts: seq<Part>)
    ensures PublicParts(BareParts(parts)) == PublicParts(parts)
    ensures Portable(BareParts(parts))
  {
    BareKeepsPublic(parts);
  }

  /** New text changes one field of the public message. */
  lemma TextIsOneField(before: string, after: string, calls: seq<Call>, reasoning: Option<string>)
    ensures AssistantFields(Some(after), calls, reasoning)
         == AssistantFields(Some(before), calls, reasoning)[Name("content") := PStr(after)]
  {
    assert |"role"| == 4 && |"content"| == 7 && |"tool_calls"| == 10 && |"reasoning_content"| == 17;
  }

  /** Dropping the text parts keeps reasoning and tool calls, in order. */
  lemma {:induction false} WithoutTextKeeps(parts: seq<Part>)
    ensures Content(WithoutText(parts)) == ""
    ensures ReasoningTexts(WithoutText(parts)) == ReasoningTexts(parts)
    ensures ToolCalls(WithoutText(parts)) == ToolCalls(parts)
  {
    if parts != [] {
      WithoutTextKeeps(parts[1..]);
      if !parts[0].TextPart? {
        assert WithoutText(parts)[1..] == WithoutText(parts[1..]);
      }
    }
  }

  lemma RetoldKeeps(parts: seq<Part>, text: string)
    ensures Content(Retold(parts, text)) == text
    ensures ReasoningTexts(Retold(parts, text)) == ReasoningTexts(parts)
    ensures ToolCalls(Retold(parts, text)) == ToolCalls(parts)
  {
    WithoutTextKeeps(parts);
    assert Retold(parts, text)[1..] == WithoutText(parts);
  }

  lemma RetoldPublic(parts: seq<Part>, text: string)
    ensures var bare := BareParts(Retold(parts, text));
      && Content(bare) == text && Reasoning(bare) == Reasoning(parts) && ToolCalls(bare) == ToolCalls(parts)
      && PublicParts(bare) == PDict(PublicParts(parts).entries[Name("content") := PStr(text)])
  {
    RetoldKeeps(parts, text);
    BareKeepsPublic(Retold(parts, text));
    TextIsOneField(Content(parts), text, ToolCalls(parts), Reasoning(parts));
  }

  /**
  The text is replaced and nothing else that is public: reasoning and tool
  calls are those of the original. No private state is left behind.
  */
  lemma ReplaceTextPublic(r: Response, text: string)
    requires CacheFresh(r)
    ensures var e := ReplaceText(r, text);
      && CacheFresh(e)
      && Content(e.parts) == text
      && Reasoning(e.parts) == Reasoning(r.parts)
      && ToolCalls(e.parts) == ToolCalls(r.parts)
      && PublicMessage(e) == PDict(PublicMessage(r).entries[Name("content") := PStr(text)])
      && Portable(e.parts) && e.scope == None && e.raw == None && e.parsed == None
      && e.metadata == r.metadata && e.rest == r.rest
  {
    var bare := BareParts(Retold(r.parts, text));
    assert ReplaceText(r, text) == Response(bare, None, None, None, r.metadata, r.rest, None);
    RetoldPublic(r.parts, text);
    assert Portable(bare);
  }

  /**
  Every copy a caller can make keeps the public view true to the parts, drops
  private state whenever the update names the parts or the replay scope, and
  shares the whole turn when it names neither.
  */
  lemma CopyNeverLies(r: Response, u: Update)
    requires CacheFresh(r) && ModelCopy(r, u).Some?
    ensures var c := ModelCopy(r, u).value;
      && CacheFresh(c)
      && PublicMessage(c) == PublicParts(Chosen(u.parts, r.parts))
      && (u.parts.Some? || u.scope.Some? ==> Portable(c.parts) && c.scope == None && c.raw == None && c.parsed == None)
      && (u.parts.None? && u.scope.None? ==> c.parts == r.parts && c.scope == r.scope && c.cache == r.cache)
      && (u.parts.None? && u.scope.None? ==> c.raw == Chosen(u.raw, r.raw) && c.parsed == Chosen(u.parsed, r.parsed))
      && c.metadata == Chosen(u.metadata, r.metadata) && c.rest == Chosen(u.rest, r.rest)
  {
    BareShowsTheSame(Chosen(u.parts, r.parts));
  }

  // ----------------------------------------------------------- rendering

  /** An entry of a message list. */
  datatype Message = Turn(response: Response) | Boundary | Plain(value: Py)

  /** Render the turn with these public values: itself when they are its own. */
  function RenderMessage(r: Response, content: Option<string>, calls: seq<Call>, reasoning: Option<string>): Message {
    if reasoning == Reasoning(r.parts) && content == Some(Content(r.parts)) && calls == ToolCalls(r.parts) then Turn(r)
    else Plain(AssistantMessage(content, calls, reasoning))
  }

  function BoundaryMessage(flag: Py): Py {
    PDict(map[Name("role") := PStr("metadata"), Name("nooa_cache_boundary") := flag])
  }

  predicate Sound(m: Message) {
    m.Turn? ==> CacheFresh(m.response)
  }

  /** What a message list entry shows on the wire. */
  function PublicView(m: Message): Py
    requires Sound(m)
  {
    match m
    case Turn(r) => PublicMessage(r)
    case Boundary => BoundaryMessage(PBool(true))
    case Plain(v) => v
  }

  /** Two messages with the same public shape have the same calls. */
  lemma {:induction false} SameCalls(a: seq<Call>, b: seq<Call>)
    requires CallMessages(a) == CallMessages(b)
    requires forall c :: c in a + b ==> c.arguments.Exact?
    ensures a == b
  {
    assert |a| == |CallMessages(a)| == |b|;
    forall i | 0 <= i < |a| ensures a[i] == b[i] {
      var x, y := CallMessages(a)[i].entries, CallMessages(b)[i].entries;
      assert a[i] in a + b && b[i] in a + b;
      assert x[Name("id")] == y[Name("id")];
      assert x[Name("function")].entries[Name("name")] == y[Name("function")].entries[Name("name")];
      assert x[Name("function")].entries[Name("arguments")] == y[Name("function")].entries[Name("arguments")];
    }
  }

  /** What can be read back from the public fields. */
  lemma FieldsRead(content: Option<string>, calls: seq<Call>, reasoning: Option<string>)
    ensures var f := AssistantFields(content, calls, reasoning);
      && Name("role") in f && f[Name("role")] == PStr("assistant")
      && Name("content") in f && f[Name("content")] == PStr(OrEmpty(content))
      && (Name("reasoning_content") in f <==> OrEmpty(reasoning) != "")
      && (OrEmpty(reasoning) != "" ==> f[Name("reasoning_content")] == PStr(reasoning.value))
      && (Name("tool_calls") in f <==> calls != [])
      && (calls != [] ==> f[Name("tool_calls")] == PList(CallMessages(calls)))
  {
    assert |"role"| == 4 && |"content"| == 7 && |"tool_calls"| == 10 && |"reasoning_content"| == 17;
  }

  /** Equal public messages come from equal text, reasoning and calls. */
  lemma SameMessage(c: Option<string>, cs: seq<Call>, rs: Option<string>,
                    d: Option<string>, ds: seq<Call>, ss: Option<string>)
    requires AssistantMessage(c, cs, rs) == AssistantMessage(d, ds, ss)
    ensures OrEmpty(c) == OrEmpty(d) && OrEmpty(rs) == OrEmpty(ss)
    ensures (forall x :: x in cs + ds ==> x.arguments.Exact?) ==> cs == ds
  {
    FieldsRead(c, cs, rs);
    FieldsRead(d, ds, ss);
    if cs != [] && forall x :: x in cs + ds ==> x.arguments.Exact? {
      SameCalls(cs, ds);
    }
  }

  /**
  Rendering always has the public view of the values it is given. The original
  turn survives exactly when that view is its own and the values are given in
  the form the turn gives them: text rather than nothing, no empty reasoning,
  exact argument strings.
  */
  lemma RenderShowsItsArguments(r: Response, content: Option<string>, calls: seq<Call>, reasoning: Option<string>)
    requires CacheFresh(r)
    ensures var m := RenderMessage(r, content, calls, reasoning);
      && Sound(m)
      && PublicView(m) == AssistantMessage(content, calls, reasoning)
      && (m == Turn(r) <==>
            && PublicMessage(r) == AssistantMessage(content, calls, reasoning)
            && content.Some? && reasoning != Some("")
            && forall c :: c in calls ==> c.arguments.Exact?)
  {
    if PublicMessage(r) == AssistantMessage(content, calls, reasoning) {
      SameMessage(Some(Content(r.parts)), ToolCalls(r.parts), Reasoning(r.parts), content, calls, reasoning);
    }
  }

  // ------------------------------------------------------ reconciliation

  /** A value up to Python equality, where True is 1 and 1.0 is 1. */
  function Canonical(v: Py): Py {
    match v
    case PBool(b) => PInt(if b then 1 else 0)
    case PFloat(r) => if r.Floor as real == r then PInt(r.Floor) else v
    case PList(items) => PList(seq(|items|, i requires 0 <= i < |items| => Canonical(items[i])))
    case PTuple(items) => PTuple(seq(|items|, i requires 0 <= i < |items| => Canonical(items[i])))
    case PDict(entries) => PDict(map k | k in entries :: Canonical(entries[k]))
    case _ => v
  }

  predicate PyEqual(a: Py, b: Py) {
    Canonical(a) == Canonical(b)
  }

  /** Python's equality, kind by kind: numbers by value across booleans, integers and
      floats; strings by content; lists, tuples and dictionaries by their contents, and
      never one kind with another. */
  lemma EqualByKind(a: Py, b: Py)
    ensures a.PBool? && b.PInt? ==> (PyEqual(a, b) <==> b.i == if a.b then 1 else 0)
    ensures a.PInt? && b.PFloat? ==> (PyEqual(a, b) <==> a.i as real == b.r)
    ensures a.PInt? && b.PInt? ==> (PyEqual(a, b) <==> a.i == b.i)
    ensures a.PStr? && b.PStr? ==> (PyEqual(a, b) <==> a.s == b.s)
    ensures (a.PList? && b.PList?) || (a.PTuple? && b.PTuple?) ==>
      (PyEqual(a, b) <==> |a.items| == |b.items| && forall i :: 0 <= i < |a.items| ==> PyEqual(a.items[i], b.items[i]))
    ensures a.PDict? && b.PDict? ==>
      (PyEqual(a, b) <==> a.entries.Keys == b.entries.Keys && forall k :: k in a.entries ==> PyEqual(a.entries[k], b.entries[k]))
    ensures PyEqual(a, b) ==>
      (a.PList? <==> b.PList?) && (a.PTuple? <==> b.PTuple?) && (a.PDict? <==> b.PDict?) && (a.PStr? <==> b.PStr?)
  {
    if (a.PList? && b.PList?) || (a.PTuple? && b.PTuple?) { EqualItems(a, b); }
    if a.PDict? && b.PDict? { EqualEntries(a, b); }
  }

  lemma EqualItems(a: Py, b: Py)
    requires (a.PList? && b.PList?) || (a.PTuple? && b.PTuple?)
    ensures PyEqual(a, b) <==> |a.items| == |b.items| && forall i :: 0 <= i < |a.items| ==> PyEqual(a.items[i], b.items[i])
  {
    var x, y := Canonical(a).items, Canonical(b).items;
    assert |x| == |a.items| && |y| == |b.items|;
    assert PyEqual(a, b) <==> x == y;
    if |a.items| == |b.items| && forall i :: 0 <= i < |a.items| ==> PyEqual(a.items[i], b.items[i]) {
      assert x == y;
    }
    if x == y {
      forall i | 0 <= i < |a.items| ensures PyEqual(a.items[i], b.items[i]) { assert x[i] == y[i]; }
    }
  }

  lemma EqualEntries(a: Py, b: Py)
    requires a.PDict? && b.PDict?
    ensures PyEqual(a, b) <==> a.entries.Keys == b.entries.Keys && forall k :: k in a.entries ==> PyEqual(a.entries[k], b.entries[k])
  {
    var x, y := Canonical(a).entries, Canonical(b).entries;
    assert x.Keys == a.entries.Keys && y.Keys == b.entries.Keys;
    if a.entries.Keys == b.entries.Keys && forall k :: k in a.entries ==> PyEqual(a.entries[k], b.entries[k]) {
      assert x == y;
    }
    if x == y {
      forall k | k in a.entries ensures PyEqual(a.entries[k], b.entries[k]) { assert x[k] == y[k]; }
    }
  }

  /** Words are Python-equal only to themselves. */
  lemma {:induction false} WordsEqualExactly(m: Py, words: Py)
    requires Wordy(words) && PyEqual(m, words)
    ensures m == words
  {
    match words
    case PList(items) =>
      var a, b := Canonical(m).items, Canonical(words).items;
      assert |m.items| == |a| == |b| == |items|;
      forall i | 0 <= i < |items| ensures m.items[i] == items[i] {
        assert a[i] == b[i];
        WordsEqualExactly(m.items[i], items[i]);
      }
    case PDict(entries) =>
      var a, b := Canonical(m).entries, Canonical(words).entries;
      assert m.entries.Keys == a.Keys == b.Keys == entries.Keys;
      forall k | k in entries ensures m.entries[k] == entries[k] {
        assert a[k] == b[k];
        WordsEqualExactly(m.entries[k], entries[k]);
      }
      assert m.entries == entries;
    case _ =>
  }

  /** The wire form of a message list. */
  function Project(messages: seq<Message>): (wire: seq<Py>)
    requires forall i :: 0 <= i < |messages| ==> Sound(messages[i])
    ensures |wire| == |messages|
    ensures forall i :: 0 <= i < |messages| ==> wire[i] == PublicView(messages[i])
  {
    seq(|messages|, i requires 0 <= i < |messages| => PublicView(messages[i]))
  }

  /** The originals recovered where a position is unchanged; public messages elsewhere. */
  function Reconcile(originals: seq<Message>, wire: seq<Py>): (messages: seq<Message>)
    requires forall i :: 0 <= i < |originals| ==> Sound(originals[i])
  {
    seq(|wire|, i requires 0 <= i < |wire| =>
      if i < |originals| && !originals[i].Plain? && PyEqual(wire[i], PublicView(originals[i]))
      then originals[i] else Plain(wire[i]))
  }

  /** A message in a cache boundary's place that equals it in Python without being it. */
  predicate Lookalike(originals: seq<Message>, wire: seq<Py>, i: nat)
    requires i < |wire|
  {
    && i < |originals| && originals[i].Boundary?
    && PyEqual(wire[i], PublicView(Boundary)) && wire[i] != PublicView(Boundary)
  }

  /**
  Recovery is invisible: whatever list comes back over the wire, the reconciled
  list shows an equal list, and the identical one but for lookalikes of a cache
  boundary. A turn recovered is the original of its own position, and a position
  left alone recovers its own entry, whatever was edited, added or cut elsewhere.
  */
  lemma RecoveryIsInvisible(originals: seq<Message>, wire: seq<Py>, i: nat)
    requires forall i :: 0 <= i < |originals| ==> Sound(originals[i])
    requires i < |wire|
    ensures var m := Reconcile(originals, wire)[i];
      && Sound(m)
      && PyEqual(PublicView(m), wire[i])
      && (PublicView(m) == wire[i] <==> !Lookalike(originals, wire, i))
      && (!m.Plain? ==> i < |originals| && m == originals[i])
      && (i < |originals| && wire[i] == PublicView(originals[i]) ==> m == originals[i])
  {
    var m := Reconcile(originals, wire)[i];
    if m.Turn? {
      var parts := m.response.parts;
      AssistantMessageWordy(Some(Content(parts)), ToolCalls(parts), Reasoning(parts));
      WordsEqualExactly(wire[i], PublicView(m));
    }
  }

  /** A lookalike exists: a boundary whose flag is spelt 1 is taken for the boundary. */
  lemma FlagOneIsALookalike()
    ensures var wire := [BoundaryMessage(PInt(1))];
      Lookalike([Boundary], wire, 0) && Reconcile([Boundary], wire) == [Boundary]
  {
    var one, two := BoundaryMessage(PInt(1)), BoundaryMessage(PBool(true));
    assert one.entries[Name("nooa_cache_boundary")] != two.entries[Name("nooa_cache_boundary")];
    assert Canonical(one).entries == Canonical(two).entries;
  }

  /** An unedited list comes back as the very same messages. */
  lemma UneditedRecovers(originals: seq<Message>)
    requires forall i :: 0 <= i < |originals| ==> Sound(originals[i])
    ensures Reconcile(originals, Project(originals)) == originals
  {
    var wire := Project(originals);
    forall i | 0 <= i < |originals| ensures Reconcile(originals, wire)[i] == originals[i] {
      RecoveryIsInvisible(originals, wire, i);
    }
    assert Reconcile(originals, wire) == originals;
  }
}
