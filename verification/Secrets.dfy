/**
The contents of a secrets file, and what one write makes of the three contents
it reads.
*/
module Secrets {
  import opened Wrappers

  // ------------------------------------------------------------ file contents

  datatype Value = Text(text: string) | NullValue | Opaque(repr: string)

  datatype EnvField = Absent | NullEnv | Env(vars: map<string, Value>) | NotAMapping

  /** A parsed document. `Falsy` is whatever parses to a false value, which counts as empty. */
  datatype Yaml = Invalid | Falsy | NotMapping | Doc(env: EnvField, others: map<string, Value>)

  /** Bytes are a document and the way it is laid out; equal bytes parse equally. */
  datatype Bytes = Bytes(layout: int, yaml: Yaml)

  /** A file's content, or nothing when the file is absent. */
  type Content = Option<Bytes>

  function Dump(doc: Yaml): Bytes { Bytes(0, doc) }

  function Parse(bytes: Bytes): Yaml { bytes.yaml }

  datatype Result<T> = Ok(value: T) | Err(error: Refusal)

  datatype Refusal = BadName | EmptyValue | InvalidYaml | NoEnvMapping | AlreadyExists | Changed

  predicate NameStart(c: char) { 'A' <= c <= 'Z' || 'a' <= c <= 'z' || c == '_' }

  predicate NameChar(c: char) { NameStart(c) || '0' <= c <= '9' }

  predicate ValidName(name: string) {
    name != [] && NameStart(name[0]) && forall i :: 0 < i < |name| ==> NameChar(name[i])
  }

  /** The mapping a file loads to; a missing or empty file is an empty mapping. */
  function LoadDoc(content: Content): Result<Yaml> {
    var yaml := if content.None? then Falsy else Parse(content.value);
    match yaml
    case Invalid => Err(InvalidYaml)
    case Falsy => Ok(Doc(Env(map[]), map[]))
    case NotMapping => Err(NoEnvMapping)
    case Doc(env, others) =>
      if env == NotAMapping then Err(NoEnvMapping)
      else if env.Env? then Ok(yaml)
      else Ok(Doc(Env(map[]), others))
  }

  /** The new content a write would put in place, from the content it parsed. */
  function Prepare(content: Content, name: string, value: string, createOnly: bool): Result<Bytes> {
    if !ValidName(name) then Err(BadName)
    else if value == "" then Err(EmptyValue)
    else match LoadDoc(content)
      case Err(e) => Err(e)
      case Ok(doc) =>
        if createOnly && name in doc.env.vars then Err(AlreadyExists)
        else Ok(Dump(Doc(Env(doc.env.vars[name := Text(value)]), doc.others)))
  }

  /** The variables a reader of the file sees. */
  function EnvOf(content: Content): map<string, Value> {
    match LoadDoc(content)
    case Err(_) => map[]
    case Ok(doc) => doc.env.vars
  }

  function OthersOf(content: Content): map<string, Value> {
    match LoadDoc(content)
    case Err(_) => map[]
    case Ok(doc) => doc.others
  }

  /** A prepared write adds or replaces one variable and nothing else; it is
      refused exactly for a bad name or value, an unusable file, or a taken name. */
  lemma PrepareUpdates(content: Content, name: string, value: string, createOnly: bool)
    ensures var r := Prepare(content, name, value, createOnly);
            && (r.Ok? <==> ValidName(name) && value != "" && LoadDoc(content).Ok?
                           && (createOnly ==> name !in EnvOf(content)))
            && (r.Ok? ==> EnvOf(Some(r.value)) == EnvOf(content)[name := Text(value)]
                          && OthersOf(Some(r.value)) == OthersOf(content))
  {
    match LoadDoc(content)
    case Err(_) =>
    case Ok(doc) => assert doc.Doc? && doc.env.Env?;
  }

  /** The whole document a write puts in place, section by section: one variable set,
      the others and everything beside `env` kept, from no file or an empty one just the
      variable.  It is refused for exactly these reasons, in this order. */
  lemma PreparedDocument(content: Content, name: string, value: string, createOnly: bool)
    ensures var r := Prepare(content, name, value, createOnly);
      if !ValidName(name) then r == Err(BadName)
      else if value == "" then r == Err(EmptyValue)
      else if content.None? || content.value.yaml.Falsy? then
        r.Ok? && r.value.yaml == Doc(Env(map[name := Text(value)]), map[])
      else match content.value.yaml
        case Invalid => r == Err(InvalidYaml)
        case NotMapping => r == Err(NoEnvMapping)
        case Doc(NotAMapping, _) => r == Err(NoEnvMapping)
        case Doc(Env(vars), others) =>
          if createOnly && name in vars then r == Err(AlreadyExists)
          else r.Ok? && r.value.yaml == Doc(Env(vars[name := Text(value)]), others)
        case Doc(_, others) => r.Ok? && r.value.yaml == Doc(Env(map[name := Text(value)]), others)
  {
    assert map[][name := Text(value)] == map[name := Text(value)];
  }

  /** What a reader sees: the variables and the other sections as they stand in the
      document, and neither where there is none or `env` is no mapping. */
  lemma ReadersSee(b: Bytes)
    ensures EnvOf(None) == map[] && OthersOf(None) == map[]
    ensures b.yaml.Doc? && b.yaml.env.Env? ==> EnvOf(Some(b)) == b.yaml.env.vars
    ensures b.yaml.Doc? && (b.yaml.env.Absent? || b.yaml.env.NullEnv?) ==> EnvOf(Some(b)) == map[]
    ensures b.yaml.Doc? && !b.yaml.env.NotAMapping? ==> OthersOf(Some(b)) == b.yaml.others
    ensures !b.yaml.Doc? || b.yaml.env.NotAMapping? ==> EnvOf(Some(b)) == map[] && OthersOf(Some(b)) == map[]
  {
  }

  /** Valid names are the words of ASCII letters (codes 65 to 90 and 97 to 122), the
      underscore (95) and, after the first character, digits (48 to 57). */
  lemma NamesAreWords(name: string)
    ensures ValidName(name) <==>
      && name != []
      && forall i :: 0 <= i < |name| ==>
           var code := name[i] as int;
           65 <= code <= 90 || 97 <= code <= 122 || code == 95 || (i > 0 && 48 <= code <= 57)
  {
  }

  // ------------------------------------------------------------ one write, from its three reads

  /** The result of a write that read `first`, parsed `second` and found `last`
      when it compared: the bytes put in place, or why nothing was replaced. */
  function WriteOutcome(first: Content, second: Content, last: Content,
                        name: string, value: string, createOnly: bool): Result<Bytes> {
    var prepared := Prepare(second, name, value, createOnly);
    if prepared.Err? then prepared
    else if last != first then Err(Changed)
    else prepared
  }

  /** A write keeps every variable of the content it replaces exactly when the
      two reads before it saw the same variables apart from the one written. */
  lemma WriteKeepsOthersIff(first: Content, second: Content, last: Content, name: string, value: string, createOnly: bool)
    requires WriteOutcome(first, second, last, name, value, createOnly).Ok?
    ensures var owned := WriteOutcome(first, second, last, name, value, createOnly).value;
            EnvOf(Some(owned)) == EnvOf(last)[name := Text(value)] <==> EnvOf(second) - {name} == EnvOf(first) - {name}
  {
    PrepareUpdates(second, name, value, createOnly);
    var a, b := EnvOf(second), EnvOf(first);
    var a', b' := a[name := Text(value)], b[name := Text(value)];
    if a' == b' {
      assert a - {name} == a' - {name};
      assert b - {name} == b' - {name};
    }
    if a - {name} == b - {name} {
      assert a' == (a - {name})[name := Text(value)];
      assert b' == (b - {name})[name := Text(value)];
    }
  }
}
