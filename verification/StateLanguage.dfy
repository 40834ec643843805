/**
  * The fragment of the Amazon States Language that the workflow exporter emits, with an
  * interpreter.  Sections "Task State", "Choice State", "Map State", "Retrying after error" and
  * "Fallback states" of the Amazon States Language specification are the reference.
  *
  * A reference path such as `$._B4.Payload.output` is the sequence of its member names.
  */
module StateLanguage {
  import opened Common

  /** `JText(v)` is the string holding the JSON text of `v` (States.JsonToString). */
  datatype Json =
    | JNull
    | JBool(truth: bool)
    | JNum(number: int)
    | JStr(text: string)
    | JText(of: Json)
    | JObj(fields: map<string, Json>)
    | JArr(items: seq<Json>)

  type Path = seq<string>

  /** State input: the document that flows through an execution is always an object. */
  type Doc = map<string, Json>

  function Lookup(v: Json, path: Path): Option<Json>
  {
    if path == [] then Some(v)
    else if v.JObj? && path[0] in v.fields then Lookup(v.fields[path[0]], path[1..])
    else None
  }

  function Member(v: Json, name: string): Option<Json>
  {
    if v.JObj? && name in v.fields then Some(v.fields[name]) else None
  }

  /** One `Parameters` or `ItemSelector` entry. */
  datatype Template =
    | Const(value: Json)
    | At(path: Path)
    | SuffixedKey(path: Path, suffix: string)
    | IndexedKey(path: Path, infix: string)
    | TextOf(path: Path)
    | TaskToken
    | MapItem

  /** The part of the context object (`$$`) that a distributed Map exposes to its selector. */
  datatype Context = Context(index: nat, item: Json)

  function Fill(t: Template, doc: Doc, ctx: Context): Option<Json>
  {
    match t
    case Const(v) => Some(v)
    case At(path) => Lookup(JObj(doc), path)
    case SuffixedKey(path, suffix) =>
      (match Lookup(JObj(doc), path)
       case Some(JStr(s)) => Some(JStr(s + suffix))
       case _ => None)
    case IndexedKey(path, infix) =>
      (match Lookup(JObj(doc), path)
       case Some(JStr(s)) => Some(JStr(s + infix + Decimal(ctx.index)))
       case _ => None)
    case TextOf(path) =>
      (match Lookup(JObj(doc), path)
       case Some(v) => Some(JText(v))
       case None => None)
    case TaskToken => Some(JNull)
    case MapItem => Some(ctx.item)
  }

  /** Named entries in document order, as `Parameters` and `ItemSelector` list them. */
  type Fields<T> = seq<(string, T)>

  /** Every entry resolves, or the payload cannot be built at all. */
  function FillAll(ts: Fields<Template>, doc: Doc, ctx: Context): Option<Fields<Json>>
  {
    if forall i | 0 <= i < |ts| :: Fill(ts[i].1, doc, ctx).Some?
    then Some(seq(|ts|, i requires 0 <= i < |ts| => (ts[i].0, Fill(ts[i].1, doc, ctx).value)))
    else None
  }

  function ToDoc(fields: Fields<Json>): Doc
  {
    if fields == [] then map[]
    else
      var last := |fields| - 1;
      ToDoc(fields[..last])[fields[last].0 := fields[last].1]
  }

  datatype Resource = LambdaInvoke | EcsRunTaskToken

  datatype Retrier = Retrier(errors: seq<string>, interval: nat, rate: nat, maxAttempts: nat)

  datatype Catcher = Catcher(errors: seq<string>, resultField: string, next: string)

  datatype Rule = Rule(variable: Path, equals: string, next: string)

  datatype State =
    | Task(resource: Resource, target: string, timeout: nat, heartbeat: Option<int>,
           parameters: Fields<Template>, resultField: string,
           retry: seq<Retrier>, catchers: seq<Catcher>, next: string)
    | Choice(rules: seq<Rule>, default: string)
    | DistributedMap(reader: seq<Path>, processor: Machine, selector: Fields<Template>,
                     concurrency: Path, resultField: string, catchers: seq<Catcher>, next: string)
    | Succeed
    | Fail(error: string)

  datatype Machine = Machine(startAt: string, states: map<string, State>)

  datatype Invocation =
    Invocation(resource: Resource, target: string, timeout: nat, payload: Fields<Json>)

  /** What an execution does to the outside world, in order. */
  datatype Event =
    | Invoked(call: Invocation)
    | Waited(seconds: nat)
    | ItemsRead(reader: seq<Json>)
    | ResultsExported

  datatype Reply<+T> = Returned(value: T) | Raised(error: string)

  /**
    * The environment.  Every answer may depend on everything that happened before, so a `World`
    * stands for an arbitrary, stateful set of services.
    */
  datatype World = World(
    task: (seq<Event>, Invocation) -> Reply<Json>,
    items: (seq<Event>, seq<Json>) -> Reply<seq<Json>>,
    writer: seq<Event> -> Reply<Json>)

  /** Error names that `States.ALL` does not cover. */
  predicate Uncatchable(error: string)
  {
    error == "States.Runtime" || error == "States.DataLimitExceeded"
  }

  predicate Covers(errors: seq<string>, error: string)
  {
    error in errors || ("States.ALL" in errors && !Uncatchable(error))
  }

  function FindRetrier(retry: seq<Retrier>, error: string): (k: nat)
    ensures k <= |retry|
  {
    if retry == [] then 0
    else if Covers(retry[0].errors, error) then 0
    else 1 + FindRetrier(retry[1..], error)
  }

  function FindCatcher(catchers: seq<Catcher>, error: string): Option<Catcher>
  {
    if catchers == [] then None
    else if Covers(catchers[0].errors, error) then Some(catchers[0])
    else FindCatcher(catchers[1..], error)
  }

  /** Retries the retriers still allow, given how often each has been used. */
  function RetriesLeft(retry: seq<Retrier>, used: seq<nat>): nat
    requires |retry| == |used|
  {
    if retry == [] then 0
    else (if used[0] < retry[0].maxAttempts then retry[0].maxAttempts - used[0] else 0)
         + RetriesLeft(retry[1..], used[1..])
  }

  lemma {:induction false} RetrySpendsBudget(retry: seq<Retrier>, used: seq<nat>, k: nat)
    requires |retry| == |used|
    requires k < |retry| && used[k] < retry[k].maxAttempts
    ensures RetriesLeft(retry, used[k := used[k] + 1]) == RetriesLeft(retry, used) - 1
  {
    var spent := used[k := used[k] + 1];
    if k == 0 {
      assert spent[1..] == used[1..];
    } else {
      assert spent[1..] == used[1..][k - 1 := used[1..][k - 1] + 1];
      RetrySpendsBudget(retry[1..], used[1..], k - 1);
    }
  }

  /** Invoke a task, retrying as its retriers allow; `used[k]` counts retries charged to retrier `k`. */
  function Attempt(w: World, call: Invocation, retry: seq<Retrier>, used: seq<nat>, trace: seq<Event>)
    : (Reply<Json>, seq<Event>)
    requires |retry| == |used|
    decreases RetriesLeft(retry, used)
  {
    var reply := w.task(trace, call);
    var after := trace + [Invoked(call)];
    if reply.Returned? then (reply, after)
    else
      var k := FindRetrier(retry, reply.error);
      if k < |retry| && used[k] < retry[k].maxAttempts then
        RetrySpendsBudget(retry, used, k);
        Attempt(w, call, retry, used[k := used[k] + 1],
                after + [Waited(retry[k].interval * Pow(retry[k].rate, used[k]))])
      else (reply, after)
  }

  function IntegrationResult(resource: Resource, reply: Json): Json
  {
    match resource
    case LambdaInvoke => JObj(map["Payload" := reply])
    case EcsRunTaskToken => reply
  }

  const PARAMETER_FAILURE := "States.ParameterPathFailure"
  const READER_FAILURE := "States.ItemReaderFailed"
  const THRESHOLD_EXCEEDED := "States.ExceedToleratedFailureThreshold"

  function ErrorOutput(error: string): Json
  {
    JObj(map["Error" := JStr(error)])
  }

  /**
    * How an execution ends.  `Aborted` is a failure no state of the machine handled (an uncatchable
    * error, a Choice variable that does not resolve, a transition to a missing state).
    */
  datatype Ending = Finished(state: string, success: bool) | Aborted | OutOfFuel

  datatype Execution = Execution(ending: Ending, trace: seq<Event>)

  datatype ChoiceResult = Unresolved | Goto(next: string)

  /** The first matching rule wins; every variable looked at must resolve. */
  function Choose(rules: seq<Rule>, default: string, doc: Doc): ChoiceResult
  {
    if rules == [] then Goto(default)
    else
      match Lookup(JObj(doc), rules[0].variable)
      case None => Unresolved
      case Some(v) =>
        if v == JStr(rules[0].equals) then Goto(rules[0].next) else Choose(rules[1..], default, doc)
  }

  /** Run machine `m` from state `name` on `doc`; `fuel` bounds the number of states entered. */
  function Run(w: World, m: Machine, name: string, doc: Doc, trace: seq<Event>, fuel: nat): Execution
    decreases fuel, 2, 0
  {
    if fuel == 0 then Execution(OutOfFuel, trace)
    else if name !in m.states then Execution(Aborted, trace)
    else
      match m.states[name]
      case Succeed => Execution(Finished(name, true), trace)
      case Fail(_) => Execution(Finished(name, false), trace)
      case Choice(rules, default) =>
        (match Choose(rules, default, doc)
         case Unresolved => Execution(Aborted, trace)
         case Goto(next) => Run(w, m, next, doc, trace, fuel - 1))
      case Task(resource, target, timeout, _, parameters, resultField, retry, catchers, next) =>
        var payload := FillAll(parameters, doc, Context(0, JNull));
        var (reply, after) :=
          if payload.None? then (Raised(PARAMETER_FAILURE), trace)
          else Attempt(w, Invocation(resource, target, timeout, payload.value), retry,
                       seq(|retry|, _ => 0), trace);
        if reply.Returned? then
          Run(w, m, next, doc[resultField := IntegrationResult(resource, reply.value)], after, fuel - 1)
        else Recover(w, m, catchers, reply.error, doc, after, fuel)
      case DistributedMap(reader, processor, selector, concurrency, resultField, catchers, next) =>
        var (reply, after) := RunMap(w, m.states[name], doc, trace, fuel - 1);
        if reply.Returned? then Run(w, m, next, doc[resultField := reply.value], after, fuel - 1)
        else Recover(w, m, catchers, reply.error, doc, after, fuel)
  }

  /** A state failed with `error`: follow its first matching catcher, or abort. */
  function Recover(w: World, m: Machine, catchers: seq<Catcher>, error: string, doc: Doc,
                   trace: seq<Event>, fuel: nat): Execution
    requires fuel > 0
    decreases fuel, 1, 0
  {
    match FindCatcher(catchers, error)
    case None => Execution(Aborted, trace)
    case Some(c) => Run(w, m, c.next, doc[c.resultField := ErrorOutput(error)], trace, fuel - 1)
  }

  function Reads(paths: seq<Path>, doc: Doc): Option<seq<Json>>
  {
    if paths == [] then Some([])
    else
      var v, vs := Lookup(JObj(doc), paths[0]), Reads(paths[1..], doc);
      if v.None? || vs.None? then None else Some([v.value] + vs.value)
  }

  /**
    * The distributed Map: read the item list, run the processor on every item, export the results.
    * No failure is tolerated: the first failed item fails the state.  Items run one after the other.
    */
  function RunMap(w: World, s: State, doc: Doc, trace: seq<Event>, fuel: nat): (Reply<Json>, seq<Event>)
    requires s.DistributedMap?
    decreases fuel, 4, 0
  {
    match Reads(s.reader, doc)
    case None => (Raised(PARAMETER_FAILURE), trace)
    case Some(location) =>
      if Lookup(JObj(doc), s.concurrency).None? then (Raised(PARAMETER_FAILURE), trace)
      else
        var listing := w.items(trace, location);
        var read := trace + [ItemsRead(location)];
        if listing.Raised? then (Raised(READER_FAILURE), read)
        else
          var (ok, after) := RunItems(w, s.processor, s.selector, doc, listing.value, 0, read, fuel);
          if ok then (w.writer(after), after + [ResultsExported]) else (Raised(THRESHOLD_EXCEEDED), after)
  }

  function RunItems(w: World, m: Machine, selector: Fields<Template>, doc: Doc, items: seq<Json>,
                    k: nat, trace: seq<Event>, fuel: nat): (bool, seq<Event>)
    requires k <= |items|
    decreases fuel, 3, |items| - k
  {
    if k == |items| then (true, trace)
    else
      match FillAll(selector, doc, Context(k, items[k]))
      case None => (false, trace)
      case Some(input) =>
        var child := Run(w, m, m.startAt, ToDoc(input), trace, fuel);
        if child.ending.Finished? && child.ending.success
        then RunItems(w, m, selector, doc, items, k + 1, child.trace, fuel)
        else (false, child.trace)
  }

  function Start(w: World, m: Machine, input: Doc, fuel: nat): Execution
  {
    Run(w, m, m.startAt, input, [], fuel)
  }
}
