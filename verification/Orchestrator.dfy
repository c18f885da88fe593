/** The pipeline spine (app/core/orchestrator.py): node boundaries, the additive lanes of the three parallel branches,
    and the validate gate with its one repair retry. Agents, the model library that validates what they return, the event
    sink, which may refuse any event, and Python's iteration of a non-list are arbitrary oracles. */
module Orchestrator {
  import opened Wrappers
  import opened Text

  // ------------------------------------------------------------------ values

  datatype Node = Discovery | News | Product | Review | Merge | Strategist

  /** The channels of the pipeline state, and every other key. */
  datatype Key = Company | Domain | Idea | RunId | Competitors | Unified | FinalReport
               | NewsResults | ProductResults | ReviewResults | Findings
               | Stray(name: string)

  datatype Model = CompetitorModel | NewsModel | ProductModel | ReviewModel | UnifiedModel | ReportModel

  datatype Report = Report(summary: string, date: string, rest: string)

  /** An object an agent may return: an instance of a contract model, or anything else. */
  datatype Item = Typed(model: Model, payload: string) | AReport(report: Report) | Other(text: string) | Note(finding: Finding)

  /** The texts in the findings lane; `Reported` is the text of an object that an agent listed there. */
  datatype Finding = Reported(item: Item) | InvalidAt(key: Key) | Failed(node: Node) | FailedTheGate | DegradedRun

  datatype Value = Nothing | List(items: seq<Item>) | One(item: Item)

  type State = map<Key, Value>

  datatype Output = Raises | NotADict(falsy: bool) | ReturnsNone | Dict(entries: seq<(Key, Value)>)

  /** An agent sees the whole state; two calls with different states may behave differently. */
  type Agent = State -> Output

  /** `model_validate`: what becomes of an object that is not yet an instance. */
  type Validator = (Model, Item) -> Option<Item>

  /** Where events are written: at a node boundary, in the gate, or in the handler around the whole run. */
  datatype Place = AtNode(node: Node) | AtGate | AtRun

  /** Whether writing the n-th event at a place raises: `emit` appends to the store and guards nothing. */
  type Sink = (Place, nat) -> bool

  /** One of the first `n` events at a place raises. */
  predicate Refused(sink: Sink, place: Place, n: nat) {
    exists i: nat :: i < n && sink(place, i)
  }

  predicate IsInstance(item: Item, model: Model) {
    match item
    case Typed(m, _) => m == model && m != ReportModel
    case AReport(_) => model == ReportModel
    case Other(_) => false
    case Note(_) => false
  }

  function Coerce(v: Validator, model: Model, item: Item): Option<Item> {
    if IsInstance(item, model) then Some(item)
    else
      match v(model, item)
      case Some(made) => if IsInstance(made, model) then Some(made) else None
      case None => None
  }

  // ------------------------------------------------------------------ boundaries

  datatype Expected = ListOf(model: Model) | Single(model: Model)

  function Spec(node: Node): map<Key, Expected> {
    match node
    case Discovery => map[Competitors := ListOf(CompetitorModel)]
    case News => map[NewsResults := ListOf(NewsModel)]
    case Product => map[ProductResults := ListOf(ProductModel)]
    case Review => map[ReviewResults := ListOf(ReviewModel)]
    case Merge => map[Unified := Single(UnifiedModel)]
    case Strategist => map[FinalReport := Single(ReportModel)]
  }

  const EMPTY_UNIFIED := Typed(UnifiedModel, "")

  function TypedEmpty(e: Expected): Value {
    match e
    case ListOf(_) => List([])
    case Single(m) => if m == UnifiedModel then One(EMPTY_UNIFIED) else Nothing
  }

  /** The items that validate, each in place of the one it came from. */
  function Kept(v: Validator, model: Model, items: seq<Item>): seq<Item> {
    if items == [] then []
    else
      var init := Kept(v, model, items[..|items| - 1]);
      match Coerce(v, model, items[|items| - 1])
      case Some(item) => init + [item]
      case None => init
  }

  /** The items that do not validate; each costs one event. */
  function Dropped(v: Validator, model: Model, items: seq<Item>): nat {
    if items == [] then 0
    else Dropped(v, model, items[..|items| - 1]) + if Coerce(v, model, items[|items| - 1]).Some? then 0 else 1
  }

  /** Every item is kept or costs one event. */
  lemma {:induction false} KeptOrDropped(v: Validator, model: Model, items: seq<Item>)
    ensures |Kept(v, model, items)| + Dropped(v, model, items) == |items|
  {
    if items != [] {
      KeptOrDropped(v, model, items[..|items| - 1]);
    }
  }

  /** The events that `_validated` writes. */
  function Complaints(v: Validator, value: Value, e: Expected): nat {
    if e.ListOf? && value.List? then Dropped(v, e.model, value.items) else if Checked(v, value, e).None? then 1 else 0
  }

  function Checked(v: Validator, value: Value, e: Expected): Option<Value> {
    match e
    case ListOf(model) => if value.List? then Some(List(Kept(v, model, value.items))) else None
    case Single(model) =>
      if !value.One? then None
      else
        match Coerce(v, model, value.item)
        case Some(item) => Some(One(item))
        case None => None
  }

  /** `_validated`, with the number of events it writes. */
  method Validated(v: Validator, value: Value, e: Expected) returns (r: Option<Value>, events: nat)
    ensures r == Checked(v, value, e) && events == Complaints(v, value, e)
  {
    match e {
      case ListOf(model) =>
        if !value.List? {
          return None, 1;
        }
        var kept := [];
        events := 0;
        for i := 0 to |value.items|
          invariant kept == Kept(v, model, value.items[..i]) && events == Dropped(v, model, value.items[..i])
        {
          assert value.items[..i + 1][..i] == value.items[..i];
          var item := Coerce(v, model, value.items[i]);
          if item.Some? {
            kept := kept + [item.value];
          } else {
            events := events + 1;
          }
        }
        assert value.items[..|value.items|] == value.items;
        return Some(List(kept)), events;
      case Single(model) =>
        if !value.One? {
          return None, 1;
        }
        var item := Coerce(v, model, value.item);
        if item.None? {
          return None, 1;
        }
        return Some(One(item.value)), 0;
    }
  }

  /** What a node's answer contributes: the checked keys and the findings reported so far. */
  datatype Delta = Delta(out: State, findings: seq<Item>)

  function Texts(items: seq<Item>): seq<Item> {
    seq(|items|, i requires 0 <= i < |items| => Note(Reported(items[i])))
  }

  function ApplyEntry(v: Validator, spec: map<Key, Expected>, d: Delta, key: Key, value: Value): Delta {
    if key == Findings then (if value.List? then d.(findings := d.findings + Texts(value.items)) else d)
    else if key !in spec then d.(out := d.out[key := value])
    else
      match Checked(v, value, spec[key])
      case Some(checked) => d.(out := d.out[key := checked])
      case None => Delta(d.out[key := TypedEmpty(spec[key])], d.findings + [Note(InvalidAt(key))])
  }

  function Applied(v: Validator, spec: map<Key, Expected>, entries: seq<(Key, Value)>): Delta {
    if entries == [] then Delta(map[], [])
    else
      var last := entries[|entries| - 1];
      ApplyEntry(v, spec, Applied(v, spec, entries[..|entries| - 1]), last.0, last.1)
  }

  function EntryEvents(v: Validator, spec: map<Key, Expected>, key: Key, value: Value): nat {
    if key == Findings || key !in spec then 0 else Complaints(v, value, spec[key])
  }

  /** The events that checking an answer writes. */
  function AnswerEvents(v: Validator, spec: map<Key, Expected>, entries: seq<(Key, Value)>): nat {
    if entries == [] then 0
    else
      var last := entries[|entries| - 1];
      AnswerEvents(v, spec, entries[..|entries| - 1]) + EntryEvents(v, spec, last.0, last.1)
  }

  function WithFindings(d: Delta): State {
    if d.findings == [] then d.out else d.out[Findings := List(d.findings)]
  }

  /** `_apply_spec`, with the number of events it writes. */
  method ApplySpec(v: Validator, spec: map<Key, Expected>, entries: seq<(Key, Value)>) returns (out: State, events: nat)
    ensures out == WithFindings(Applied(v, spec, entries)) && events == AnswerEvents(v, spec, entries)
  {
    out, events := map[], 0;
    var findings := [];
    for i := 0 to |entries|
      invariant Delta(out, findings) == Applied(v, spec, entries[..i]) && events == AnswerEvents(v, spec, entries[..i])
    {
      assert entries[..i + 1][..i] == entries[..i];
      var (key, value) := entries[i];
      if key == Findings {
        if value.List? {
          findings := findings + Texts(value.items);
        }
      } else if key !in spec {
        out := out[key := value];
      } else {
        var checked, complaints := Validated(v, value, spec[key]);
        events := events + complaints;
        if checked.None? {
          out := out[key := TypedEmpty(spec[key])];
          findings := findings + [Note(InvalidAt(key))];
        } else {
          out := out[key := checked.value];
        }
      }
    }
    assert entries[..|entries|] == entries;
    if findings != [] {
      out := out[Findings := List(findings)];
    }
  }

  function Degraded(node: Node): State {
    var spec := Spec(node);
    (map k | k in spec :: TypedEmpty(spec[k]))[Findings := List([Note(Failed(node))])]
  }

  /** `_boundary`: whatever the agent does, a delta comes out. */
  function Guarded(v: Validator, node: Node, agent: Agent, st: State): State {
    match agent(st)
    case Raises => Degraded(node)
    case NotADict(_) => Degraded(node)
    case ReturnsNone => WithFindings(Applied(v, Spec(node), []))
    case Dict(entries) => WithFindings(Applied(v, Spec(node), entries))
  }

  /** The events that a boundary writes around its agent, the first one before it calls the agent. */
  function BoundaryEvents(v: Validator, node: Node, output: Output): nat {
    match output
    case Raises => 3
    case NotADict(_) => 3
    case ReturnsNone => 2
    case Dict(entries) => 2 + AnswerEvents(v, Spec(node), entries)
  }

  /** A node raises exactly when one of its boundary's own events is refused. */
  predicate NodeRaises(v: Validator, sink: Sink, node: Node, agent: Agent, st: State) {
    Refused(sink, AtNode(node), BoundaryEvents(v, node, agent(st)))
  }

  // ------------------------------------------------------------------ supersteps

  datatype GraphError = TwoWriters | NotAList | NoInput | MissingAgent | SinkRaised

  predicate IsLane(k: Key) {
    k == NewsResults || k == ProductResults || k == ReviewResults || k == Findings
  }

  /** The values the deltas of one superstep write to `key`, in the order in which they are folded. */
  function Writes(deltas: seq<State>, key: Key): seq<Value> {
    if deltas == [] then []
    else Writes(deltas[..|deltas| - 1], key) +
         (if key in deltas[|deltas| - 1] then [deltas[|deltas| - 1][key]] else [])
  }

  function Concat(values: seq<Value>): seq<Item> {
    if values == [] then []
    else Concat(values[..|values| - 1]) +
         (if values[|values| - 1].List? then values[|values| - 1].items else [])
  }

  predicate AllLists(values: seq<Value>) {
    forall x :: x in values ==> x.List?
  }

  function Base(st: State, key: Key): seq<Item> {
    if key in st && st[key].List? then st[key].items else []
  }

  function Get(st: State, key: Key): Value {
    if key in st then st[key] else Nothing
  }

  /** What becomes of a channel: a lane concatenates, a plain key takes the value written. */
  function Folded(st: State, written: seq<Value>, key: Key): Value
  {
    if IsLane(key) then List(Base(st, key) + Concat(written))
    else if written == [] then Get(st, key) else written[0]
  }

  /** The values written to one channel go together: a lane takes lists, a plain key takes one value. */
  predicate Fine(st: State, written: seq<Value>, key: Key) {
    if IsLane(key) then AllLists(written) && (key in st ==> st[key].List?) else |written| <= 1
  }

  /** The channels that the deltas of one superstep write. */
  function Touched(deltas: seq<State>): set<Key> {
    set d, k | d in deltas && k in d && !k.Stray? :: k
  }

  lemma {:induction false} TouchedIsWritten(deltas: seq<State>, k: Key)
    ensures k in Touched(deltas) <==> !k.Stray? && Writes(deltas, k) != []
  {
    if deltas != [] {
      var n := |deltas| - 1;
      TouchedIsWritten(deltas[..n], k);
      assert deltas == deltas[..n] + [deltas[n]];
    }
  }

  ghost predicate AllFine(st: State, deltas: seq<State>, lanes: bool) {
    forall k: Key :: !k.Stray? && IsLane(k) == lanes ==> Fine(st, Writes(deltas, k), k)
  }

  /** The channels after a superstep; keys that are no channels are ignored. */
  function Fold(st: State, deltas: seq<State>): State {
    map k | k in st.Keys + Touched(deltas) && !k.Stray? :: Folded(st, Writes(deltas, k), k)
  }

  /** One superstep: it fails where written values do not go together. */
  ghost function Commit(st: State, deltas: seq<State>): Result<State, GraphError> {
    if !AllFine(st, deltas, false) then Err(TwoWriters)
    else if !AllFine(st, deltas, true) then Err(NotAList)
    else Ok(Fold(st, deltas))
  }

  // ------------------------------------------------------------------ the validate gate

  datatype Problem = Missing | NotAReport | EmptySummary | FencedSummary | JsonSummary | NoDate

  function If(p: bool, problem: Problem): seq<Problem> {
    if p then [problem] else []
  }

  predicate Fenced(s: string) {
    exists i :: 0 <= i < |s| - 2 && s[i] == '`' && s[i + 1] == '`' && s[i + 2] == '`'
  }

  predicate BraceQuote(s: string) {
    exists i :: 0 <= i < |s| - 1 && s[i] == '{' && s[i + 1] == '"'
  }

  predicate LooksLikeJson(s: string) {
    (s != "" && (s[0] == '{' || s[0] == '[')) || BraceQuote(s)
  }

  function ProblemsOf(r: Report): seq<Problem> {
    var summary := Strip(r.summary);
    If(summary == "", EmptySummary) + If(Fenced(summary), FencedSummary) +
    If(LooksLikeJson(summary), JsonSummary) + If(Strip(r.date) == "", NoDate)
  }

  /** `_report_problems`. */
  function ReportProblems(value: Value): seq<Problem> {
    match value
    case Nothing => [Missing]
    case List(_) => [NotAReport]
    case One(item) =>
      match item
      case AReport(r) => ProblemsOf(r)
      case _ => [NotAReport]
  }

  /** The value a dict holds for `key`: the last entry with that key. */
  function Lookup(entries: seq<(Key, Value)>, key: Key): Value {
    if entries == [] then Nothing
    else if entries[|entries| - 1].0 == key then entries[|entries| - 1].1
    else Lookup(entries[..|entries| - 1], key)
  }

  const RETRY := Stray("_repair_attempt")

  function Repaired(v: Validator, strategist: Agent, st: State): Value {
    match strategist(st[RETRY := One(Other("True"))])
    case Raises => Nothing
    case NotADict(_) => Nothing
    case ReturnsNone => Nothing
    case Dict(entries) =>
      var candidate := Lookup(entries, FinalReport);
      if !candidate.One? then Nothing
      else
        match Coerce(v, ReportModel, candidate.item)
        case Some(item) => One(item)
        case None => Nothing
  }

  /** The repair retry raises inside its `try`, which costs one event. */
  predicate RepairRaises(v: Validator, strategist: Agent, st: State) {
    match strategist(st[RETRY := One(Other("True"))])
    case Raises => true
    case NotADict(falsy) => !falsy
    case ReturnsNone => false
    case Dict(entries) =>
      var candidate := Lookup(entries, FinalReport);
      candidate.List? || (candidate.One? && Coerce(v, ReportModel, candidate.item).None?)
  }

  const NO_REPORT: State := map[FinalReport := Nothing, Findings := List([Note(FailedTheGate)])]

  /** `_validate_node`: the gate's delta and whether it called the strategist again. */
  function Gate(v: Validator, strategist: Agent, st: State): (State, bool) {
    if ReportProblems(Get(st, FinalReport)) == [] then (map[], false)
    else
      var repaired := Repaired(v, strategist, st);
      (if ReportProblems(repaired) == [] then map[FinalReport := repaired] else NO_REPORT, true)
  }

  /** The events that the gate writes, the first two of a repair before it calls the strategist. */
  function GateEvents(v: Validator, strategist: Agent, st: State): nat {
    if ReportProblems(Get(st, FinalReport)) == [] then 1 else if RepairRaises(v, strategist, st) then 4 else 3
  }

  /** The strategist calls of a run when the gate ends or raises. */
  function CallsAtGate(sink: Sink, again: bool): nat {
    if again && !sink(AtGate, 0) && !sink(AtGate, 1) then 2 else 1
  }

  predicate GateRaises(v: Validator, sink: Sink, strategist: Agent, st: State) {
    Refused(sink, AtGate, GateEvents(v, strategist, st))
  }

  // ------------------------------------------------------------------ runs

  /** The end of a run and how many times it called the strategist. */
  datatype Run = Run(final: State, calls: nat)

  predicate HasAnalysisAgents(agents: map<Node, Agent>) {
    News in agents && Product in agents && Review in agents && Merge in agents && Strategist in agents
  }

  function GatherDeltas(v: Validator, agents: map<Node, Agent>, st: State): seq<State>
    requires HasAnalysisAgents(agents)
  {
    [Guarded(v, News, agents[News], st), Guarded(v, Product, agents[Product], st), Guarded(v, Review, agents[Review], st)]
  }

  /** How a graph ends: with a state, or with an error after `calls` strategist calls. */
  datatype Graph = Finished(st: State, calls: nat) | Broken(error: GraphError, calls: nat)

  predicate BranchRaises(v: Validator, sink: Sink, agents: map<Node, Agent>, st: State)
    requires HasAnalysisAgents(agents)
  {
    || NodeRaises(v, sink, News, agents[News], st)
    || NodeRaises(v, sink, Product, agents[Product], st)
    || NodeRaises(v, sink, Review, agents[Review], st)
  }

  /** The supersteps from the gathering branches to the gate. */
  ghost function FromGather(v: Validator, sink: Sink, agents: map<Node, Agent>, st: State): Graph
    requires HasAnalysisAgents(agents)
  {
    if BranchRaises(v, sink, agents, st) then Broken(SinkRaised, 0)
    else FromDeltas(v, sink, agents, st, GatherDeltas(v, agents, st))
  }

  /** The same, once the branches have answered with `deltas`, folded in this order. */
  ghost function FromDeltas(v: Validator, sink: Sink, agents: map<Node, Agent>, st: State, deltas: seq<State>): Graph
    requires HasAnalysisAgents(agents)
  {
    match Commit(st, deltas)
    case Err(e) => Broken(e, 0)
    case Ok(st1) => FromMerge(v, sink, agents, st1)
  }

  ghost function FromMerge(v: Validator, sink: Sink, agents: map<Node, Agent>, st: State): Graph
    requires HasAnalysisAgents(agents)
  {
    if NodeRaises(v, sink, Merge, agents[Merge], st) then Broken(SinkRaised, 0)
    else
      match Commit(st, [Guarded(v, Merge, agents[Merge], st)])
      case Err(e) => Broken(e, 0)
      case Ok(st1) => FromStrategist(v, sink, agents[Strategist], st1)
  }

  ghost function FromStrategist(v: Validator, sink: Sink, strategist: Agent, st: State): Graph {
    if NodeRaises(v, sink, Strategist, strategist, st) then Broken(SinkRaised, if sink(AtNode(Strategist), 0) then 0 else 1)
    else
      match Commit(st, [Guarded(v, Strategist, strategist, st)])
      case Err(e) => Broken(e, 1)
      case Ok(st1) => FromGate(v, sink, strategist, st1)
  }

  ghost function FromGate(v: Validator, sink: Sink, strategist: Agent, st: State): Graph {
    var (delta, again) := Gate(v, strategist, st);
    Ended(if GateRaises(v, sink, strategist, st) then Err(SinkRaised) else Commit(st, [delta]), CallsAtGate(sink, again))
  }

  function Ended(r: Result<State, GraphError>, calls: nat): Graph {
    match r
    case Err(e) => Broken(e, calls)
    case Ok(st) => Finished(st, calls)
  }

  /** The initial state goes through the same channels. */
  ghost function Enter(input: State): Result<State, GraphError> {
    if forall k :: k in input ==> k.Stray? then Err(NoInput) else Commit(map[], [input])
  }

  /** `build_analysis_graph`, invoked. */
  ghost function AnalysisGraph(v: Validator, sink: Sink, agents: map<Node, Agent>, input: State): Graph {
    if !HasAnalysisAgents(agents) then Broken(MissingAgent, 0)
    else
      match Enter(input)
      case Err(e) => Broken(e, 0)
      case Ok(st) => FromGather(v, sink, agents, st)
  }

  /** `build_graph`, invoked. */
  ghost function PipelineGraph(v: Validator, sink: Sink, agents: map<Node, Agent>, input: State): Graph {
    if !HasAnalysisAgents(agents) || Discovery !in agents then Broken(MissingAgent, 0)
    else
      match Enter(input)
      case Err(e) => Broken(e, 0)
      case Ok(st) => FromDiscovery(v, sink, agents, st)
  }

  ghost function FromDiscovery(v: Validator, sink: Sink, agents: map<Node, Agent>, st: State): Graph
    requires HasAnalysisAgents(agents) && Discovery in agents
  {
    if NodeRaises(v, sink, Discovery, agents[Discovery], st) then Broken(SinkRaised, 0)
    else
      match Commit(st, [Guarded(v, Discovery, agents[Discovery], st)])
      case Err(e) => Broken(e, 0)
      case Ok(st1) => FromGather(v, sink, agents, st1)
  }

  /** `list(...)` of what the caller stored under the findings key; `iter` is the iteration of any other object. */
  function AsList(st: State, iter: Item -> Option<seq<Item>>): Option<seq<Item>> {
    match if Findings in st then st[Findings] else List([])
    case Nothing => None
    case List(items) => Some(items)
    case One(item) => iter(item)
  }

  /** The outer boundary: an error of the graph becomes an event and a degraded state; `None` is an exception that
      escapes. */
  function Outer(g: Graph, sink: Sink, input: State, iter: Item -> Option<seq<Item>>): Option<Run> {
    match g
    case Finished(st, calls) => Some(Run(st, calls))
    case Broken(_, calls) =>
      if sink(AtRun, 0) then None
      else
        match AsList(input, iter)
        case None => None
        case Some(items) => Some(Run(input[FinalReport := Nothing][Findings := List(items + [Note(DegradedRun)])], calls))
  }

  function Seeded(state: State): State {
    map[NewsResults := List([]), ProductResults := List([]), ReviewResults := List([]), Findings := List([])] + state
  }

  /** `run_analysis`. */
  ghost function RunAnalysis(v: Validator, sink: Sink, agents: map<Node, Agent>, state: State,
                             iter: Item -> Option<seq<Item>>): Option<Run>
  {
    Outer(AnalysisGraph(v, sink, agents, Seeded(state)), sink, Seeded(state), iter)
  }

  predicate Truthy(value: Value) {
    match value
    case Nothing => false
    case List(items) => items != []
    case One(item) => item != Other("")
  }

  /** The idea pre-step, which only ever sets the company and the domain; `None` when one of its events is refused. */
  type Resolver = State -> Option<(Value, Value)>

  predicate IdeaMode(state: State) {
    Truthy(Get(state, Idea)) && !Truthy(Get(state, Company))
  }

  /** The state that the graph starts from, or that the handler sees. */
  function Resolved(state: State, resolve: Resolver): State {
    if !IdeaMode(state) then state
    else
      match resolve(state)
      case None => state
      case Some((company, domain)) => state[Company := company][Domain := domain]
  }

  /** The body of the `try` in `run_pipeline`. */
  ghost function PipelineBody(v: Validator, sink: Sink, agents: map<Node, Agent>, state: State, resolve: Resolver): Graph {
    if IdeaMode(state) && resolve(state).None? then Broken(SinkRaised, 0)
    else PipelineGraph(v, sink, agents, Resolved(state, resolve))
  }

  /** `run_pipeline`. */
  ghost function RunPipeline(v: Validator, sink: Sink, agents: map<Node, Agent>, state: State, resolve: Resolver,
                             iter: Item -> Option<seq<Item>>): Option<Run>
  {
    Outer(PipelineBody(v, sink, agents, state, resolve), sink, Resolved(state, resolve), iter)
  }

  // ------------------------------------------------------------------ every run settles

  /** The report passes every sanity check, or there is none and a finding says that the run is degraded. */
  predicate Settled(st: State) {
    && FinalReport in st
    && (ReportProblems(st[FinalReport]) == [] || (st[FinalReport] == Nothing && Base(st, Findings) != []))
  }

  /** Only channels hold values, and lanes are always lists. */
  predicate Channels(st: State) {
    forall k :: k in st ==> !k.Stray? && (IsLane(k) ==> st[k].List?)
  }

  lemma CommitChannels(st: State, deltas: seq<State>)
    requires Commit(st, deltas).Ok?
    ensures Channels(Commit(st, deltas).value)
  {
  }

  /** What a single delta writes. */
  function Written(delta: State, key: Key): seq<Value> {
    if key in delta then [delta[key]] else []
  }

  lemma OneWriter(delta: State, key: Key)
    ensures Writes([delta], key) == Written(delta, key)
  {
    assert [delta][..0] == [];
  }

  lemma ConcatOne(value: Value)
    ensures Concat([value]) == if value.List? then value.items else []
  {
    assert [value][..0] == [];
  }

  lemma OneIsFine(st: State, delta: State, lanes: bool)
    requires Channels(st)
    requires forall k :: k in delta && IsLane(k) ==> delta[k].List?
    ensures AllFine(st, [delta], lanes)
  {
    forall k: Key | !k.Stray? && IsLane(k) == lanes ensures Fine(st, Writes([delta], k), k) {
      OneWriter(delta, k);
    }
  }

  /** A single delta goes through as long as the lanes it writes are lists. */
  lemma OneGoesThrough(st: State, delta: State)
    requires Channels(st)
    requires forall k :: k in delta && IsLane(k) ==> delta[k].List?
    ensures Commit(st, [delta]) == Ok(Fold(st, [delta]))
  {
    OneIsFine(st, delta, false);
    OneIsFine(st, delta, true);
  }

  /** What a single delta does to a channel: a lane grows by its list, a plain key takes its value, and the rest stays. */
  predicate OneAt(st: State, delta: State, st': State, k: Key)
    requires k in delta && IsLane(k) ==> delta[k].List?
  {
    if k in delta then k in st' && st'[k] == if IsLane(k) then List(Base(st, k) + delta[k].items) else delta[k]
    else ((k in st) == (k in st')) && (k in st ==> st'[k] == st[k])
  }

  lemma OneAtKey(st: State, delta: State, k: Key)
    requires Channels(st) && !k.Stray?
    requires k in delta && IsLane(k) ==> delta[k].List?
    ensures OneAt(st, delta, Fold(st, [delta]), k)
  {
    OneWriter(delta, k);
    TouchedIsWritten([delta], k);
    if k in delta {
      ConcatOne(delta[k]);
    } else if k in st && IsLane(k) {
      assert Base(st, k) + [] == Base(st, k);
    }
  }

  /** The report the gate leaves. */
  function GateReport(v: Validator, strategist: Agent, st: State): Value {
    if ReportProblems(Get(st, FinalReport)) == [] then Get(st, FinalReport)
    else if ReportProblems(Repaired(v, strategist, st)) == [] then Repaired(v, strategist, st)
    else Nothing
  }

  /** The findings the gate adds. */
  function GateFindings(v: Validator, strategist: Agent, st: State): seq<Item> {
    if GateReport(v, strategist, st) == Nothing then [Note(FailedTheGate)] else []
  }

  lemma GateDelta(v: Validator, strategist: Agent, st: State)
    ensures var (delta, again) := Gate(v, strategist, st);
      && delta.Keys <= {FinalReport, Findings}
      && (FinalReport in delta <==> again)
      && (again ==> delta[FinalReport] == GateReport(v, strategist, st))
      && (Findings in delta <==> GateFindings(v, strategist, st) != [])
      && (Findings in delta ==> delta[Findings] == List(GateFindings(v, strategist, st)))
  {
    assert ReportProblems(Nothing) == [Missing];
  }

  lemma ReportAndFindings(st: State, delta: State)
    requires Channels(st)
    requires delta.Keys <= {FinalReport, Findings} && (Findings in delta ==> delta[Findings].List?)
    ensures var st' := Fold(st, [delta]);
      && Get(st', FinalReport) == (if FinalReport in delta then delta[FinalReport] else Get(st, FinalReport))
      && Base(st', Findings) == Base(st, Findings) + (if Findings in delta then delta[Findings].items else [])
      && (forall k :: k != FinalReport && k != Findings ==> Get(st', k) == Get(st, k))
  {
    OneAtKey(st, delta, FinalReport);
    OneAtKey(st, delta, Findings);
    forall k | k != FinalReport && k != Findings ensures Get(Fold(st, [delta]), k) == Get(st, k) {
      if !k.Stray? {
        OneAtKey(st, delta, k);
      }
    }
  }

  /** The gate calls the strategist again exactly when the report it sees has a problem, keeps a good report as it is,
      and otherwise ends with the repaired report exactly when that one is good; nothing but a finding changes besides. */
  lemma GateDecides(v: Validator, strategist: Agent, st: State)
    requires Channels(st)
    ensures Gate(v, strategist, st).1 <==> ReportProblems(Get(st, FinalReport)) != []
    ensures var r := Commit(st, [Gate(v, strategist, st).0]);
      && r.Ok?
      && Get(r.value, FinalReport) == GateReport(v, strategist, st)
      && Base(r.value, Findings) == Base(st, Findings) + GateFindings(v, strategist, st)
      && (forall k :: k != FinalReport && k != Findings ==> Get(r.value, k) == Get(st, k))
  {
    GateDelta(v, strategist, st);
    OneGoesThrough(st, Gate(v, strategist, st).0);
    ReportAndFindings(st, Gate(v, strategist, st).0);
  }

  /** What the gate writes settles the run. */
  lemma GateSettles(v: Validator, strategist: Agent, st: State)
    requires Channels(st)
    ensures Commit(st, [Gate(v, strategist, st).0]).Ok?
    ensures Settled(Commit(st, [Gate(v, strategist, st).0]).value)
  {
    GateDelta(v, strategist, st);
    ReportAndFindings(st, Gate(v, strategist, st).0);
    OneGoesThrough(st, Gate(v, strategist, st).0);
    OneAtKey(st, Gate(v, strategist, st).0, FinalReport);
  }

  ghost predicate Settles(g: Graph) {
    g.calls <= 2 && (g.Finished? ==> Settled(g.st))
  }

  lemma FromGateSettles(v: Validator, sink: Sink, strategist: Agent, st: State)
    requires Channels(st)
    ensures Settles(FromGate(v, sink, strategist, st))
  {
    GateSettles(v, strategist, st);
    var (delta, again) := Gate(v, strategist, st);
    EndedSettles(if GateRaises(v, sink, strategist, st) then Err(SinkRaised) else Commit(st, [delta]),
                 CallsAtGate(sink, again));
  }

  lemma EndedSettles(r: Result<State, GraphError>, calls: nat)
    requires calls <= 2 && (r.Ok? ==> Settled(r.value))
    ensures Settles(Ended(r, calls))
  {
  }

  lemma FromStrategistSettles(v: Validator, sink: Sink, strategist: Agent, st: State)
    ensures Settles(FromStrategist(v, sink, strategist, st))
  {
    var r := Commit(st, [Guarded(v, Strategist, strategist, st)]);
    if r.Ok? {
      CommitChannels(st, [Guarded(v, Strategist, strategist, st)]);
      FromGateSettles(v, sink, strategist, r.value);
    }
  }

  lemma FromGatherSettles(v: Validator, sink: Sink, agents: map<Node, Agent>, st: State)
    requires HasAnalysisAgents(agents)
    ensures Settles(FromGather(v, sink, agents, st))
  {
    var r := Commit(st, GatherDeltas(v, agents, st));
    if r.Ok? {
      var r' := Commit(r.value, [Guarded(v, Merge, agents[Merge], r.value)]);
      if r'.Ok? {
        FromStrategistSettles(v, sink, agents[Strategist], r'.value);
      }
    }
  }

  lemma FromDiscoverySettles(v: Validator, sink: Sink, agents: map<Node, Agent>, st: State)
    requires HasAnalysisAgents(agents) && Discovery in agents
    ensures Settles(FromDiscovery(v, sink, agents, st))
  {
    var r := Commit(st, [Guarded(v, Discovery, agents[Discovery], st)]);
    if r.Ok? {
      FromGatherSettles(v, sink, agents, r.value);
    }
  }

  /** Findings that are no list break the graph at its entry. */
  lemma EnterNeedsLists(input: State)
    requires Findings in input && !input[Findings].List?
    ensures Enter(input).Err?
  {
    OneWriter(input, Findings);
    var written := Writes([input], Findings);
    assert written[0] in written;
    assert !Fine(map[], written, Findings);
  }

  lemma OuterSettles(g: Graph, sink: Sink, input: State, iter: Item -> Option<seq<Item>>)
    requires Settles(g)
    requires AsList(input, iter).None? ==> g.Broken?
    ensures var r := Outer(g, sink, input, iter);
      && (r.None? <==> AsList(input, iter).None? || (g.Broken? && sink(AtRun, 0)))
      && (r.Some? ==> r.value.calls <= 2 && Settled(r.value.final))
  {
  }

  /** For every agent behaviour and every event sink, phase 2 ends in a settled state after at most two strategist calls,
      unless an exception escapes; and one escapes exactly when the caller stored something under the findings key that
      cannot be iterated, or the graph breaks and the store then refuses the handler's own event. */
  lemma AnalysisSettles(v: Validator, sink: Sink, agents: map<Node, Agent>, state: State, iter: Item -> Option<seq<Item>>)
    ensures var r := RunAnalysis(v, sink, agents, state, iter);
      && (r.None? <==> AsList(state, iter).None? ||
                       (AnalysisGraph(v, sink, agents, Seeded(state)).Broken? && sink(AtRun, 0)))
      && (r.Some? ==> r.value.calls <= 2 && Settled(r.value.final))
  {
    var input := Seeded(state);
    if !input[Findings].List? {
      EnterNeedsLists(input);
    }
    if HasAnalysisAgents(agents) && Enter(input).Ok? {
      FromGatherSettles(v, sink, agents, Enter(input).value);
    }
    OuterSettles(AnalysisGraph(v, sink, agents, input), sink, input, iter);
  }

  /** So does the one-shot pipeline, idea pre-step and discovery included. */
  lemma PipelineSettles(v: Validator, sink: Sink, agents: map<Node, Agent>, state: State, resolve: Resolver,
                        iter: Item -> Option<seq<Item>>)
    ensures var r := RunPipeline(v, sink, agents, state, resolve, iter);
      && (r.None? <==> AsList(state, iter).None? ||
                       (PipelineBody(v, sink, agents, state, resolve).Broken? && sink(AtRun, 0)))
      && (r.Some? ==> r.value.calls <= 2 && Settled(r.value.final))
  {
    var st := Resolved(state, resolve);
    if Findings in st && !st[Findings].List? {
      EnterNeedsLists(st);
    }
    if HasAnalysisAgents(agents) && Discovery in agents && Enter(st).Ok? {
      FromDiscoverySettles(v, sink, agents, Enter(st).value);
    }
    OuterSettles(PipelineBody(v, sink, agents, state, resolve), sink, st, iter);
  }

  // ------------------------------------------------------------------ boundaries keep the contract

  /** The value is what the contract expects for its key, or the typed-empty substitute. */
  predicate Fits(value: Value, e: Expected) {
    match e
    case ListOf(model) => value.List? && forall i :: 0 <= i < |value.items| ==> IsInstance(value.items[i], model)
    case Single(model) => value == TypedEmpty(e) || (value.One? && IsInstance(value.item, model))
  }

  lemma {:induction false} KeptAreInstances(v: Validator, model: Model, items: seq<Item>)
    ensures forall i :: 0 <= i < |Kept(v, model, items)| ==> IsInstance(Kept(v, model, items)[i], model)
  {
    if items != [] {
      KeptAreInstances(v, model, items[..|items| - 1]);
    }
  }

  lemma {:induction false} AppliedFits(v: Validator, spec: map<Key, Expected>, entries: seq<(Key, Value)>)
    requires Findings !in spec
    ensures var out := Applied(v, spec, entries).out;
      Findings !in out && forall k :: k in spec && k in out ==> Fits(out[k], spec[k])
  {
    if entries != [] {
      AppliedFits(v, spec, entries[..|entries| - 1]);
      var (key, value) := entries[|entries| - 1];
      if key in spec && spec[key].ListOf? && value.List? {
        KeptAreInstances(v, spec[key].model, value.items);
      }
    }
  }

  /** Whatever an agent does, every contract key in its delta holds a value of the contract type. */
  lemma GuardedFits(v: Validator, node: Node, agent: Agent, st: State)
    ensures var out := Guarded(v, node, agent, st);
      forall k :: k in Spec(node) && k in out ==> Fits(out[k], Spec(node)[k])
  {
    match agent(st)
    case Dict(entries) => AppliedFits(v, Spec(node), entries);
    case ReturnsNone => AppliedFits(v, Spec(node), []);
    case _ =>
  }

  /** An item is kept exactly when some item of the list validates to it. */
  lemma {:induction false} KeptIff(v: Validator, model: Model, items: seq<Item>, x: Item)
    ensures x in Kept(v, model, items) <==> exists y :: y in items && Coerce(v, model, y) == Some(x)
  {
    if items != [] {
      var init, last := items[..|items| - 1], items[|items| - 1];
      KeptIff(v, model, init, x);
      assert items == init + [last];
      assert forall y :: y in items <==> y in init || y == last;
    }
  }

  /** A list of instances is kept as it is. */
  lemma {:induction false} InstancesAreKept(v: Validator, model: Model, items: seq<Item>)
    requires forall i :: 0 <= i < |items| ==> IsInstance(items[i], model)
    ensures Kept(v, model, items) == items
  {
    if items != [] {
      var init, last := items[..|items| - 1], items[|items| - 1];
      InstancesAreKept(v, model, init);
      assert items == init + [last];
    }
  }

  /** An agent that raises or answers with no dict costs its own keys, replaced by typed-empty values, and one finding. */
  lemma FailureIsContained(v: Validator, node: Node, agent: Agent, st: State)
    requires agent(st).Raises? || agent(st).NotADict?
    ensures var out := Guarded(v, node, agent, st);
      && out.Keys == Spec(node).Keys + {Findings}
      && (forall k :: k in Spec(node) ==> out[k] == TypedEmpty(Spec(node)[k]))
      && out[Findings] == List([Note(Failed(node))])
  {
    assert Findings !in Spec(node);
  }

  /** The substitutes of each node. */
  lemma SubstitutesAreEmpty(node: Node)
    ensures forall k :: k in Spec(node) ==>
      TypedEmpty(Spec(node)[k]) ==
        match k
        case Unified => One(EMPTY_UNIFIED)
        case FinalReport => Nothing
        case _ => List([])
  {
  }

  /** What one entry of an answer becomes. */
  function Outcome(v: Validator, spec: map<Key, Expected>, key: Key, value: Value): Value {
    if key !in spec then value
    else match Checked(v, value, spec[key]) case Some(checked) => checked case None => TypedEmpty(spec[key])
  }

  /** Dicts have distinct keys. */
  ghost predicate DistinctKeys(entries: seq<(Key, Value)>) {
    forall i, j :: 0 <= i < j < |entries| ==> entries[i].0 != entries[j].0
  }

  lemma OutOfLast(v: Validator, spec: map<Key, Expected>, entries: seq<(Key, Value)>)
    requires entries != []
    ensures var (key, value) := entries[|entries| - 1];
      var out := Applied(v, spec, entries[..|entries| - 1]).out;
      Applied(v, spec, entries).out == if key == Findings then out else out[key := Outcome(v, spec, key, value)]
  {
  }

  /** Key by key: each entry but the findings appears with its outcome, and no other key does. */
  lemma {:induction false} EntriesPass(v: Validator, spec: map<Key, Expected>, entries: seq<(Key, Value)>)
    requires DistinctKeys(entries)
    ensures var out := Applied(v, spec, entries).out;
      && (forall i :: 0 <= i < |entries| && entries[i].0 != Findings ==>
            entries[i].0 in out && out[entries[i].0] == Outcome(v, spec, entries[i].0, entries[i].1))
      && (forall k :: k in out ==> k != Findings && exists i :: 0 <= i < |entries| && entries[i].0 == k)
  {
    if entries != [] {
      var n := |entries| - 1;
      EntriesPass(v, spec, entries[..n]);
      OutOfLast(v, spec, entries);
      assert forall i :: 0 <= i < n ==> entries[..n][i] == entries[i];
    }
  }

  /** A report passes exactly when it is a report whose summary is neither blank nor model debris and whose date is set. */
  lemma PassesIff(value: Value)
    ensures ReportProblems(value) == [] <==>
      && value.One? && value.item.AReport?
      && var summary := Strip(value.item.report.summary);
      && summary != "" && summary[0] != '{' && summary[0] != '['
      && !Contains(summary, "```") && !Contains(summary, "{\"")
      && Strip(value.item.report.date) != ""
  {
    if value.One? && value.item.AReport? {
      var summary := Strip(value.item.report.summary);
      FencedIff(summary);
      BraceQuoteIff(summary);
      PassesAll(value.item.report);
    }
  }

  lemma PassesAll(r: Report)
    ensures var summary := Strip(r.summary);
      ProblemsOf(r) == [] <==> summary != "" && !Fenced(summary) && !LooksLikeJson(summary) && Strip(r.date) != ""
  {
    var summary := Strip(r.summary);
    var a, b, c, d := If(summary == "", EmptySummary), If(Fenced(summary), FencedSummary),
                      If(LooksLikeJson(summary), JsonSummary), If(Strip(r.date) == "", NoDate);
    assert |a + b + c + d| == |a| + |b| + |c| + |d|;
  }

  lemma FencedIff(s: string)
    ensures Fenced(s) <==> Contains(s, "```")
  {
    if Fenced(s) {
      var i :| 0 <= i < |s| - 2 && s[i] == '`' && s[i + 1] == '`' && s[i + 2] == '`';
      assert s[i..i + 3] == "```";
      assert OccursAt(s, "```", i);
    }
    if Contains(s, "```") {
      var i :| OccursAt(s, "```", i);
      assert s[i..i + 3] == "```";
      assert s[i] == s[i..i + 3][0] && s[i + 1] == s[i..i + 3][1] && s[i + 2] == s[i..i + 3][2];
    }
  }

  lemma BraceQuoteIff(s: string)
    ensures BraceQuote(s) <==> Contains(s, "{\"")
  {
    if BraceQuote(s) {
      var i :| 0 <= i < |s| - 1 && s[i] == '{' && s[i + 1] == '"';
      assert s[i..i + 2] == "{\"";
      assert OccursAt(s, "{\"", i);
    }
    if Contains(s, "{\"") {
      var i :| OccursAt(s, "{\"", i);
      assert s[i..i + 2] == "{\"";
      assert s[i] == s[i..i + 2][0] && s[i + 1] == s[i..i + 2][1];
    }
  }

  // ------------------------------------------------------------------ the fold order does not matter

  lemma {:induction false} WritesConcat(a: seq<State>, b: seq<State>, key: Key)
    ensures Writes(a + b, key) == Writes(a, key) + Writes(b, key)
  {
    if b == [] {
      assert a + b == a;
    } else {
      assert (a + b)[..|a + b| - 1] == a + b[..|b| - 1];
      WritesConcat(a, b[..|b| - 1], key);
    }
  }

  lemma {:induction false} ConcatConcat(a: seq<Value>, b: seq<Value>)
    ensures Concat(a + b) == Concat(a) + Concat(b)
  {
    if b == [] {
      assert a + b == a;
    } else {
      assert (a + b)[..|a + b| - 1] == a + b[..|b| - 1];
      ConcatConcat(a, b[..|b| - 1]);
    }
  }

  /** A reordering of a list that ends in `d` has `d` somewhere, and the rest reorders the rest. */
  lemma PickLast<T>(a: seq<T>, b: seq<T>) returns (i: nat)
    requires a != [] && multiset(a) == multiset(b)
    ensures i < |b| && b[i] == a[|a| - 1]
    ensures multiset(a[..|a| - 1]) == multiset(b[..i] + b[i + 1..])
  {
    var n, d := |a| - 1, a[|a| - 1];
    assert a == a[..n] + [d];
    assert d in multiset(b);
    i :| 0 <= i < |b| && b[i] == d;
    assert b == b[..i] + ([d] + b[i + 1..]);
    assert multiset(b[..i] + b[i + 1..]) == multiset(b) - multiset{d};
    assert multiset(a[..n]) == multiset(a) - multiset{d};
  }

  /** Taking one delta out of the middle takes out what it writes. */
  lemma WritesWithout(a: seq<State>, d: State, b: seq<State>, key: Key)
    ensures multiset(Writes(a + ([d] + b), key)) == multiset(Writes(a + b, key)) + multiset(Written(d, key))
  {
    WritesConcat(a, [d] + b, key);
    WritesConcat([d], b, key);
    WritesConcat(a, b, key);
    OneWriter(d, key);
  }

  lemma {:induction false} WritesReorder(a: seq<State>, b: seq<State>, key: Key)
    requires multiset(a) == multiset(b)
    ensures multiset(Writes(a, key)) == multiset(Writes(b, key))
  {
    if a == [] {
      assert |b| == |multiset(b)| == 0;
    } else {
      var n, d := |a| - 1, a[|a| - 1];
      var i := PickLast(a, b);
      WritesReorder(a[..n], b[..i] + b[i + 1..], key);
      assert b == b[..i] + ([d] + b[i + 1..]) && a == a[..n] + ([d] + []) && a[..n] + [] == a[..n];
      WritesWithout(a[..n], d, [], key);
      WritesWithout(b[..i], d, b[i + 1..], key);
    }
  }

  lemma ConcatWithout(a: seq<Value>, d: Value, b: seq<Value>)
    ensures multiset(Concat(a + ([d] + b))) == multiset(Concat(a + b)) + multiset(Concat([d]))
  {
    ConcatConcat(a, [d] + b);
    ConcatConcat([d], b);
    ConcatConcat(a, b);
  }

  lemma {:induction false} ConcatReorder(a: seq<Value>, b: seq<Value>)
    requires multiset(a) == multiset(b)
    ensures multiset(Concat(a)) == multiset(Concat(b))
  {
    if a == [] {
      assert |b| == |multiset(b)| == 0;
    } else {
      var n, d := |a| - 1, a[|a| - 1];
      var i := PickLast(a, b);
      ConcatReorder(a[..n], b[..i] + b[i + 1..]);
      assert b == b[..i] + ([d] + b[i + 1..]) && a == a[..n] + ([d] + []) && a[..n] + [] == a[..n];
      ConcatWithout(a[..n], d, []);
      ConcatWithout(b[..i], d, b[i + 1..]);
    }
  }

  /** Each result lane is written by at most one branch. */
  ghost predicate OwnLanes(deltas: seq<State>) {
    forall k :: IsLane(k) && k != Findings ==> |Writes(deltas, k)| <= 1
  }

  lemma SameWrites(a: seq<Value>, b: seq<Value>)
    requires multiset(a) == multiset(b)
    ensures |a| == |b| && (AllLists(a) <==> AllLists(b)) && (|a| <= 1 ==> a == b)
  {
    assert |a| == |multiset(a)| == |multiset(b)| == |b|;
    assert forall x :: x in a <==> x in multiset(a);
    assert forall x :: x in b <==> x in multiset(b);
    if |a| == 1 {
      assert a[0] in b;
    }
  }

  /** One channel does not see the order, apart from the order of its findings. */
  lemma KeyReorder(st: State, a: seq<State>, b: seq<State>, k: Key)
    requires multiset(a) == multiset(b)
    ensures var wa, wb := Writes(a, k), Writes(b, k);
      && |wa| == |wb| && (Fine(st, wa, k) <==> Fine(st, wb, k))
      && (|wa| <= 1 ==> wa == wb) && multiset(Concat(wa)) == multiset(Concat(wb))
  {
    WritesReorder(a, b, k);
    SameWrites(Writes(a, k), Writes(b, k));
    ConcatReorder(Writes(a, k), Writes(b, k));
  }

  lemma SameOutcome(st: State, a: seq<State>, b: seq<State>)
    requires multiset(a) == multiset(b)
    ensures Commit(st, a).Ok? <==> Commit(st, b).Ok?
    ensures Commit(st, a).Err? ==> Commit(st, a) == Commit(st, b)
  {
    forall k ensures Fine(st, Writes(a, k), k) <==> Fine(st, Writes(b, k), k) {
      KeyReorder(st, a, b, k);
    }
  }

  lemma SameFolded(st: State, wa: seq<Value>, wb: seq<Value>, k: Key)
    requires |wa| <= 1 ==> wa == wb
    requires multiset(Concat(wa)) == multiset(Concat(wb))
    requires k != Findings ==> |wa| <= 1
    ensures k != Findings ==> Folded(st, wa, k) == Folded(st, wb, k)
    ensures k == Findings ==> Folded(st, wa, k).List? && Folded(st, wb, k).List? &&
                              multiset(Folded(st, wa, k).items) == multiset(Folded(st, wb, k).items)
  {
  }

  /** `st'` is what folding `written` into `st` makes of the channel `k`. */
  predicate At(st: State, written: seq<Value>, st': State, k: Key) {
    && (k in st' <==> !k.Stray? && (k in st || written != []))
    && (k in st' ==> st'[k] == Folded(st, written, k))
  }

  lemma FoldAt(st: State, deltas: seq<State>, k: Key)
    ensures At(st, Writes(deltas, k), Fold(st, deltas), k)
  {
    TouchedIsWritten(deltas, k);
  }

  /** One channel after two orders of folding. */
  lemma SameChannel(st: State, a: seq<State>, b: seq<State>, m: State, m': State, k: Key)
    requires multiset(a) == multiset(b)
    requires k != Findings && !k.Stray? ==> |Writes(a, k)| <= 1
    requires At(st, Writes(a, k), m, k) && At(st, Writes(b, k), m', k)
    ensures k in m <==> k in m'
    ensures k in m && k != Findings ==> m[k] == m'[k]
    ensures k == Findings ==> multiset(Base(m, k)) == multiset(Base(m', k))
  {
    KeyReorder(st, a, b, k);
    if !k.Stray? {
      SameFolded(st, Writes(a, k), Writes(b, k), k);
    }
  }

  lemma SameFold(st: State, a: seq<State>, b: seq<State>, m: State, m': State)
    requires multiset(a) == multiset(b)
    requires forall k: Key :: k != Findings && !k.Stray? ==> |Writes(a, k)| <= 1
    requires forall k :: At(st, Writes(a, k), m, k) && At(st, Writes(b, k), m', k)
    ensures m - {Findings} == m' - {Findings}
    ensures multiset(Base(m, Findings)) == multiset(Base(m', Findings))
  {
    forall k
      ensures k in m <==> k in m'
      ensures k in m && k != Findings ==> m[k] == m'[k]
    {
      SameChannel(st, a, b, m, m', k);
    }
    SameChannel(st, a, b, m, m', Findings);
  }

  /** The gathering branches are confluent: any order of folding their deltas gives the same outcome, the same value
      for every key but the findings, and the same findings as a multiset. */
  lemma BranchesAreConfluent(st: State, a: seq<State>, b: seq<State>)
    requires multiset(a) == multiset(b) && OwnLanes(a)
    ensures var r, r' := Commit(st, a), Commit(st, b);
      && (r.Err? ==> r' == r)
      && (r.Ok? ==> r'.Ok? && r.value - {Findings} == r'.value - {Findings} &&
                    multiset(Base(r.value, Findings)) == multiset(Base(r'.value, Findings)))
  {
    SameOutcome(st, a, b);
    if Commit(st, a).Ok? {
      forall k ensures At(st, Writes(a, k), Fold(st, a), k) && At(st, Writes(b, k), Fold(st, b), k) {
        FoldAt(st, a, k);
        FoldAt(st, b, k);
      }
      forall k: Key | k != Findings && !k.Stray? ensures |Writes(a, k)| <= 1 {
        assert Fine(st, Writes(a, k), k);
      }
      SameFold(st, a, b, Fold(st, a), Fold(st, b));
    }
  }

  // ------------------------------------------------------------------ nor does it show in the report

  /** The states agree but for the order of their findings. */
  ghost predicate Similar(a: State, b: State) {
    && Channels(a) && Channels(b)
    && (forall k :: k in a <==> k in b)
    && (forall k :: k in a && k != Findings ==> a[k] == b[k])
    && multiset(Base(a, Findings)) == multiset(Base(b, Findings))
  }

  /** The agent does not look at the findings. */
  ghost predicate Blind(agent: Agent) {
    forall a: State, b: State :: a - {Findings} == b - {Findings} ==> agent(a) == agent(b)
  }

  lemma SimilarChannel(a: State, b: State, delta: State, k: Key)
    requires Similar(a, b)
    requires At(a, Written(delta, k), Fold(a, [delta]), k) && At(b, Written(delta, k), Fold(b, [delta]), k)
    ensures var m, m' := Fold(a, [delta]), Fold(b, [delta]);
      && (k in m <==> k in m')
      && (k in m && k != Findings ==> m[k] == m'[k])
      && (k == Findings ==> multiset(Base(m, k)) == multiset(Base(m', k)))
  {
    SimilarFolded(a, b, Written(delta, k), k);
  }

  lemma SimilarFolded(a: State, b: State, written: seq<Value>, k: Key)
    requires (k in a <==> k in b) && (k in a && k != Findings ==> a[k] == b[k])
    requires multiset(Base(a, Findings)) == multiset(Base(b, Findings))
    ensures k != Findings ==> Folded(a, written, k) == Folded(b, written, k)
    ensures k == Findings ==> multiset(Folded(a, written, k).items) == multiset(Folded(b, written, k).items)
  {
  }

  lemma SimilarFold(a: State, b: State, delta: State)
    requires Similar(a, b)
    ensures Commit(a, [delta]).Ok? <==> Commit(b, [delta]).Ok?
    ensures Commit(a, [delta]).Err? ==> Commit(a, [delta]) == Commit(b, [delta])
    ensures Commit(a, [delta]).Ok? ==> Similar(Commit(a, [delta]).value, Commit(b, [delta]).value)
  {
    SimilarOutcome(a, b, delta);
    if Commit(a, [delta]).Ok? {
      CommitChannels(a, [delta]);
      CommitChannels(b, [delta]);
      SimilarFolds(a, b, delta);
    }
  }

  lemma SimilarOutcome(a: State, b: State, delta: State)
    requires Similar(a, b)
    ensures Commit(a, [delta]).Ok? <==> Commit(b, [delta]).Ok?
    ensures Commit(a, [delta]).Err? ==> Commit(a, [delta]) == Commit(b, [delta])
  {
    forall k ensures Fine(a, Writes([delta], k), k) <==> Fine(b, Writes([delta], k), k) {
    }
  }

  lemma SimilarFolds(a: State, b: State, delta: State)
    requires Similar(a, b)
    requires Channels(Fold(a, [delta])) && Channels(Fold(b, [delta]))
    ensures Similar(Fold(a, [delta]), Fold(b, [delta]))
  {
    forall k
      ensures k in Fold(a, [delta]) <==> k in Fold(b, [delta])
      ensures k in Fold(a, [delta]) && k != Findings ==> Fold(a, [delta])[k] == Fold(b, [delta])[k]
      ensures k == Findings ==> multiset(Base(Fold(a, [delta]), k)) == multiset(Base(Fold(b, [delta]), k))
    {
      FoldAt(a, [delta], k);
      FoldAt(b, [delta], k);
      OneWriter(delta, k);
      SimilarChannel(a, b, delta, k);
    }
  }

  lemma SameGate(v: Validator, strategist: Agent, a: State, b: State)
    requires Similar(a, b) && Blind(strategist)
    ensures Gate(v, strategist, a) == Gate(v, strategist, b)
    ensures GateEvents(v, strategist, a) == GateEvents(v, strategist, b)
  {
    assert Get(a, FinalReport) == Get(b, FinalReport);
    assert a[RETRY := One(Other("True"))] - {Findings} == b[RETRY := One(Other("True"))] - {Findings};
    assert Repaired(v, strategist, a) == Repaired(v, strategist, b);
  }

  lemma SameGuarded(v: Validator, node: Node, agent: Agent, a: State, b: State)
    requires Similar(a, b) && Blind(agent)
    ensures Guarded(v, node, agent, a) == Guarded(v, node, agent, b) && agent(a) == agent(b)
  {
    assert a - {Findings} == b - {Findings};
  }

  ghost predicate SameEnd(g: Graph, h: Graph) {
    g.calls == h.calls &&
    (if g.Finished? then h.Finished? && Similar(g.st, h.st) else h.Broken? && g.error == h.error)
  }

  lemma GateEnds(v: Validator, sink: Sink, strategist: Agent, a: State, b: State)
    requires Similar(a, b) && Blind(strategist)
    ensures SameEnd(FromGate(v, sink, strategist, a), FromGate(v, sink, strategist, b))
  {
    SameGate(v, strategist, a, b);
    SimilarFold(a, b, Gate(v, strategist, a).0);
  }

  lemma StrategistEnds(v: Validator, sink: Sink, strategist: Agent, a: State, b: State)
    requires Similar(a, b) && Blind(strategist)
    ensures SameEnd(FromStrategist(v, sink, strategist, a), FromStrategist(v, sink, strategist, b))
  {
    var delta := Guarded(v, Strategist, strategist, a);
    SameGuarded(v, Strategist, strategist, a, b);
    SimilarFold(a, b, delta);
    if Commit(a, [delta]).Ok? {
      var a', b' := Commit(a, [delta]).value, Commit(b, [delta]).value;
      GateEnds(v, sink, strategist, a', b');
    }
  }

  lemma MergeEnds(v: Validator, sink: Sink, agents: map<Node, Agent>, a: State, b: State)
    requires HasAnalysisAgents(agents) && Blind(agents[Merge]) && Blind(agents[Strategist]) && Similar(a, b)
    ensures SameEnd(FromMerge(v, sink, agents, a), FromMerge(v, sink, agents, b))
  {
    var delta := Guarded(v, Merge, agents[Merge], a);
    SameGuarded(v, Merge, agents[Merge], a, b);
    SimilarFold(a, b, delta);
    if Commit(a, [delta]).Ok? {
      StrategistEnds(v, sink, agents[Strategist], Commit(a, [delta]).value, Commit(b, [delta]).value);
    }
  }

  /** The order in which the branches are folded never shows but in the order of the findings: merge and strategist get
      the same input and run equally often, and the run ends with the same report, as long as neither reads the findings
      lane. */
  lemma OrderIsInvisible(v: Validator, sink: Sink, agents: map<Node, Agent>, st: State, a: seq<State>, b: seq<State>)
    requires HasAnalysisAgents(agents) && Blind(agents[Merge]) && Blind(agents[Strategist])
    requires multiset(a) == multiset(b) && OwnLanes(a)
    ensures SameEnd(FromDeltas(v, sink, agents, st, a), FromDeltas(v, sink, agents, st, b))
  {
    SameOutcome(st, a, b);
    if Commit(st, a).Ok? {
      FoldsAreSimilar(st, a, b);
      MergeEnds(v, sink, agents, Fold(st, a), Fold(st, b));
    }
  }

  lemma FoldsAreSimilar(st: State, a: seq<State>, b: seq<State>)
    requires multiset(a) == multiset(b) && OwnLanes(a) && Commit(st, a).Ok? && Commit(st, b).Ok?
    ensures Similar(Fold(st, a), Fold(st, b))
  {
    CommitChannels(st, a);
    CommitChannels(st, b);
    forall k
      ensures k in Fold(st, a) <==> k in Fold(st, b)
      ensures k in Fold(st, a) && k != Findings ==> Fold(st, a)[k] == Fold(st, b)[k]
      ensures k == Findings ==> multiset(Base(Fold(st, a), k)) == multiset(Base(Fold(st, b), k))
    {
      FoldAt(st, a, k);
      FoldAt(st, b, k);
      assert !k.Stray? ==> Fine(st, Writes(a, k), k);
      SameChannel(st, a, b, Fold(st, a), Fold(st, b), k);
    }
  }

  // ------------------------------------------------------------------ what the branches gather

  predicate IsBranch(node: Node) {
    node == News || node == Product || node == Review
  }

  function LaneOf(node: Node): Key
    requires IsBranch(node)
  {
    match node
    case News => NewsResults
    case Product => ProductResults
    case Review => ReviewResults
  }

  /** What `gather_node` makes of a branch: it raises, or answers with its own lane alone. */
  predicate AnswersOwnLane(node: Node, output: Output)
    requires IsBranch(node)
  {
    output.Raises? || (output.Dict? && |output.entries| == 1 && output.entries[0].0 == LaneOf(node))
  }

  /** The items of a branch that validate. */
  function Gathered(v: Validator, node: Node, output: Output): seq<Item>
    requires IsBranch(node) && AnswersOwnLane(node, output)
  {
    if output.Dict? && output.entries[0].1.List?
    then Kept(v, Spec(node)[LaneOf(node)].model, output.entries[0].1.items)
    else []
  }

  /** The delta of a branch: its own lane, and findings if there are any. */
  predicate WritesLane(d: State, lane: Key, items: seq<Item>) {
    && d.Keys <= {lane, Findings}
    && lane in d && d[lane] == List(items)
    && (Findings in d ==> d[Findings].List?)
  }

  lemma BranchDelta(v: Validator, node: Node, agent: Agent, st: State)
    requires IsBranch(node) && AnswersOwnLane(node, agent(st))
    ensures WritesLane(Guarded(v, node, agent, st), LaneOf(node), Gathered(v, node, agent(st)))
  {
    if agent(st).Dict? {
      var entries := agent(st).entries;
      assert entries[..0] == [];
      assert Applied(v, Spec(node), entries)
          == ApplyEntry(v, Spec(node), Delta(map[], []), entries[0].0, entries[0].1);
    }
  }

  lemma ThreeWriters(d0: State, d1: State, d2: State, k: Key)
    ensures Writes([d0, d1, d2], k) == Written(d0, k) + Written(d1, k) + Written(d2, k)
  {
    assert [d0, d1, d2] == [d0] + [d1] + [d2];
    WritesConcat([d0] + [d1], [d2], k);
    WritesConcat([d0], [d1], k);
    OneWriter(d0, k);
    OneWriter(d1, k);
    OneWriter(d2, k);
  }

  lemma ThreeLanes(d0: State, d1: State, d2: State, i0: seq<Item>, i1: seq<Item>, i2: seq<Item>, k: Key)
    requires WritesLane(d0, NewsResults, i0) && WritesLane(d1, ProductResults, i1) && WritesLane(d2, ReviewResults, i2)
    ensures var written := Written(d0, k) + Written(d1, k) + Written(d2, k);
      && (k == NewsResults ==> written == [List(i0)])
      && (k == ProductResults ==> written == [List(i1)])
      && (k == ReviewResults ==> written == [List(i2)])
      && (!IsLane(k) && !k.Stray? ==> written == [])
      && (k == Findings ==> AllLists(written))
  {
  }

  /** What the three branches write to a channel: each result lane once, plain keys never. */
  lemma BranchWrites(v: Validator, agents: map<Node, Agent>, st: State, k: Key)
    requires HasAnalysisAgents(agents)
    requires forall node :: IsBranch(node) ==> AnswersOwnLane(node, agents[node](st))
    ensures var written := Writes(GatherDeltas(v, agents, st), k);
      && (forall node :: IsBranch(node) && k == LaneOf(node) ==> written == [List(Gathered(v, node, agents[node](st)))])
      && (!IsLane(k) && !k.Stray? ==> written == [])
      && (k == Findings ==> AllLists(written))
  {
    var d0, d1, d2 := Guarded(v, News, agents[News], st), Guarded(v, Product, agents[Product], st),
                      Guarded(v, Review, agents[Review], st);
    BranchDelta(v, News, agents[News], st);
    BranchDelta(v, Product, agents[Product], st);
    BranchDelta(v, Review, agents[Review], st);
    ThreeWriters(d0, d1, d2, k);
    ThreeLanes(d0, d1, d2, Gathered(v, News, agents[News](st)), Gathered(v, Product, agents[Product](st)),
               Gathered(v, Review, agents[Review](st)), k);
  }

  lemma BranchesGoThrough(v: Validator, agents: map<Node, Agent>, st: State)
    requires HasAnalysisAgents(agents) && Channels(st)
    requires forall node :: IsBranch(node) ==> AnswersOwnLane(node, agents[node](st))
    ensures Commit(st, GatherDeltas(v, agents, st)).Ok?
    ensures OwnLanes(GatherDeltas(v, agents, st))
  {
    forall k: Key | !k.Stray? ensures Fine(st, Writes(GatherDeltas(v, agents, st), k), k)
                              ensures k != Findings ==> |Writes(GatherDeltas(v, agents, st), k)| <= 1 {
      BranchWrites(v, agents, st, k);
      assert k == LaneOf(News) || k == LaneOf(Product) || k == LaneOf(Review) || k == Findings || !IsLane(k);
    }
  }

  /** A result lane after the branches, in any order of folding. */
  lemma LaneAfter(v: Validator, agents: map<Node, Agent>, st: State, deltas: seq<State>, node: Node)
    requires HasAnalysisAgents(agents) && IsBranch(node)
    requires forall n :: IsBranch(n) ==> AnswersOwnLane(n, agents[n](st))
    requires multiset(deltas) == multiset(GatherDeltas(v, agents, st))
    ensures Get(Fold(st, deltas), LaneOf(node)) == List(Base(st, LaneOf(node)) + Gathered(v, node, agents[node](st)))
  {
    BranchLane(v, agents, st, node);
    LaneReordered(st, GatherDeltas(v, agents, st), deltas, LaneOf(node), Gathered(v, node, agents[node](st)));
  }

  lemma BranchLane(v: Validator, agents: map<Node, Agent>, st: State, node: Node)
    requires HasAnalysisAgents(agents) && IsBranch(node)
    requires forall n :: IsBranch(n) ==> AnswersOwnLane(n, agents[n](st))
    ensures Writes(GatherDeltas(v, agents, st), LaneOf(node)) == [List(Gathered(v, node, agents[node](st)))]
  {
    BranchWrites(v, agents, st, LaneOf(node));
  }

  lemma LaneReordered(st: State, a: seq<State>, b: seq<State>, lane: Key, items: seq<Item>)
    requires IsLane(lane) && multiset(a) == multiset(b) && Writes(a, lane) == [List(items)]
    ensures Get(Fold(st, b), lane) == List(Base(st, lane) + items)
  {
    KeyReorder(st, a, b, lane);
    FoldAt(st, b, lane);
    ConcatOne(List(items));
  }

  /** A plain key after the branches. */
  lemma PlainAfter(v: Validator, agents: map<Node, Agent>, st: State, deltas: seq<State>, k: Key)
    requires HasAnalysisAgents(agents) && !k.Stray? && !IsLane(k)
    requires forall n :: IsBranch(n) ==> AnswersOwnLane(n, agents[n](st))
    requires multiset(deltas) == multiset(GatherDeltas(v, agents, st))
    ensures Get(Fold(st, deltas), k) == Get(st, k)
  {
    BranchWrites(v, agents, st, k);
    KeyReorder(st, GatherDeltas(v, agents, st), deltas, k);
    FoldAt(st, deltas, k);
    assert Writes(deltas, k) == [];
  }

  /** The superstep of the three branches always goes through, in any order of folding: each result lane grows by
      exactly the items of its own branch that validate, in their order, and no plain key changes. */
  lemma LanesHoldTheValidItems(v: Validator, agents: map<Node, Agent>, st: State, deltas: seq<State>)
    requires HasAnalysisAgents(agents) && Channels(st)
    requires forall node :: IsBranch(node) ==> AnswersOwnLane(node, agents[node](st))
    requires multiset(deltas) == multiset(GatherDeltas(v, agents, st))
    ensures Commit(st, deltas) == Ok(Fold(st, deltas))
    ensures forall node :: IsBranch(node) ==>
      Get(Fold(st, deltas), LaneOf(node)) == List(Base(st, LaneOf(node)) + Gathered(v, node, agents[node](st)))
    ensures forall k: Key :: !k.Stray? && !IsLane(k) ==> Get(Fold(st, deltas), k) == Get(st, k)
  {
    BranchesGoThrough(v, agents, st);
    SameOutcome(st, GatherDeltas(v, agents, st), deltas);
    forall node | IsBranch(node)
      ensures Get(Fold(st, deltas), LaneOf(node)) == List(Base(st, LaneOf(node)) + Gathered(v, node, agents[node](st)))
    {
      LaneAfter(v, agents, st, deltas, node);
    }
    forall k: Key | !k.Stray? && !IsLane(k) ensures Get(Fold(st, deltas), k) == Get(st, k) {
      PlainAfter(v, agents, st, deltas, k);
    }
  }

  // ------------------------------------------------------------------ when the entry points raise

  /** What the adapters answer with: keys that the node owns, and findings. */
  predicate OwnKeys(node: Node, output: Output) {
    output.Dict? ==> forall i :: 0 <= i < |output.entries| ==>
      output.entries[i].0 in Spec(node) || output.entries[i].0 == Findings
  }

  ghost predicate Wired(agents: map<Node, Agent>) {
    HasAnalysisAgents(agents) && forall node, st: State :: node in agents ==> OwnKeys(node, agents[node](st))
  }

  lemma {:induction false} AppliedOwnKeys(v: Validator, spec: map<Key, Expected>, entries: seq<(Key, Value)>)
    requires forall i :: 0 <= i < |entries| ==> entries[i].0 in spec || entries[i].0 == Findings
    ensures Applied(v, spec, entries).out.Keys <= spec.Keys
  {
    if entries != [] {
      AppliedOwnKeys(v, spec, entries[..|entries| - 1]);
    }
  }

  /** Such a node writes its own keys and findings, and lists to every lane. */
  lemma WiredDelta(v: Validator, node: Node, agent: Agent, st: State)
    requires OwnKeys(node, agent(st))
    ensures var out := Guarded(v, node, agent, st);
      && out.Keys <= Spec(node).Keys + {Findings}
      && (forall k :: k in out && IsLane(k) ==> out[k].List?)
  {
    GuardedFits(v, node, agent, st);
    match agent(st)
    case Dict(entries) =>
      AppliedOwnKeys(v, Spec(node), entries);
      AppliedFits(v, Spec(node), entries);
    case _ =>
  }

  lemma {:induction false} WrittenBySome(deltas: seq<State>, k: Key, x: Value)
    requires x in Writes(deltas, k)
    ensures exists i :: 0 <= i < |deltas| && k in deltas[i] && deltas[i][k] == x
  {
    var n := |deltas| - 1;
    if x in Writes(deltas[..n], k) {
      WrittenBySome(deltas[..n], k, x);
      var i :| 0 <= i < n && k in deltas[..n][i] && deltas[..n][i][k] == x;
      assert deltas[i] == deltas[..n][i];
    } else {
      assert deltas[n][k] == x;
    }
  }

  /** Deltas that write lists to lanes and nothing to plain keys always go together. */
  lemma LanesGoThrough(st: State, deltas: seq<State>)
    requires Channels(st)
    requires forall i, k :: 0 <= i < |deltas| && k in deltas[i] ==> IsLane(k) && deltas[i][k].List?
    ensures Commit(st, deltas) == Ok(Fold(st, deltas))
  {
    forall k: Key | !k.Stray? ensures Fine(st, Writes(deltas, k), k) {
      forall x | x in Writes(deltas, k) ensures IsLane(k) && x.List? {
        WrittenBySome(deltas, k, x);
      }
      if Writes(deltas, k) != [] {
        assert Writes(deltas, k)[0] in Writes(deltas, k);
      }
    }
  }

  lemma GatherGoesThrough(v: Validator, agents: map<Node, Agent>, st: State)
    requires Wired(agents) && Channels(st)
    ensures Commit(st, GatherDeltas(v, agents, st)) == Ok(Fold(st, GatherDeltas(v, agents, st)))
  {
    WiredDelta(v, News, agents[News], st);
    WiredDelta(v, Product, agents[Product], st);
    WiredDelta(v, Review, agents[Review], st);
    LanesGoThrough(st, GatherDeltas(v, agents, st));
  }

  lemma NodeGoesThrough(v: Validator, node: Node, agent: Agent, st: State)
    requires OwnKeys(node, agent(st)) && Channels(st)
    ensures Commit(st, [Guarded(v, node, agent, st)]) == Ok(After(v, node, agent, st))
    ensures Channels(After(v, node, agent, st))
  {
    WiredDelta(v, node, agent, st);
    OneGoesThrough(st, Guarded(v, node, agent, st));
    CommitChannels(st, [Guarded(v, node, agent, st)]);
  }

  /** The state after a node that runs alone. */
  function After(v: Validator, node: Node, agent: Agent, st: State): State {
    Fold(st, [Guarded(v, node, agent, st)])
  }

  /** On the way from the gathering branches to the gate some event of a boundary or of the gate is refused. */
  predicate SomeRefused(v: Validator, sink: Sink, agents: map<Node, Agent>, st: State)
    requires HasAnalysisAgents(agents)
  {
    var st1 := Fold(st, GatherDeltas(v, agents, st));
    var st2 := After(v, Merge, agents[Merge], st1);
    var st3 := After(v, Strategist, agents[Strategist], st2);
    || BranchRaises(v, sink, agents, st)
    || NodeRaises(v, sink, Merge, agents[Merge], st1)
    || NodeRaises(v, sink, Strategist, agents[Strategist], st2)
    || GateRaises(v, sink, agents[Strategist], st3)
  }

  lemma StrategistBreaksIff(v: Validator, sink: Sink, strategist: Agent, st: State)
    requires OwnKeys(Strategist, strategist(st)) && Channels(st)
    ensures FromStrategist(v, sink, strategist, st).Broken?
       <==> NodeRaises(v, sink, Strategist, strategist, st) ||
            GateRaises(v, sink, strategist, After(v, Strategist, strategist, st))
  {
    NodeGoesThrough(v, Strategist, strategist, st);
    GateDecides(v, strategist, After(v, Strategist, strategist, st));
  }

  /** With wired agents nothing but a refused event breaks the graph. */
  lemma GatherBreaksIff(v: Validator, sink: Sink, agents: map<Node, Agent>, st: State)
    requires Wired(agents) && Channels(st)
    ensures FromGather(v, sink, agents, st).Broken? <==> SomeRefused(v, sink, agents, st)
  {
    GatherGoesThrough(v, agents, st);
    CommitChannels(st, GatherDeltas(v, agents, st));
    var st1 := Fold(st, GatherDeltas(v, agents, st));
    NodeGoesThrough(v, Merge, agents[Merge], st1);
    StrategistBreaksIff(v, sink, agents[Strategist], After(v, Merge, agents[Merge], st1));
  }

  /** What the caller hands in: lists in the lanes. */
  predicate ListsInLanes(state: State) {
    forall k :: k in state && IsLane(k) ==> state[k].List?
  }

  lemma EnterGoesThrough(input: State)
    requires ListsInLanes(input) && HasInput(input)
    ensures Enter(input) == Ok(Fold(map[], [input])) && Channels(Fold(map[], [input]))
  {
    OneGoesThrough(map[], input);
    CommitChannels(map[], [input]);
  }

  /** With wired agents and lists in the lanes, an exception escapes from phase 2 if and only if some event of a boundary
      or of the gate is refused, and the handler's event after it is refused too. */
  lemma AnalysisEscapesIff(v: Validator, sink: Sink, agents: map<Node, Agent>, state: State,
                           iter: Item -> Option<seq<Item>>)
    requires Wired(agents) && ListsInLanes(state)
    ensures RunAnalysis(v, sink, agents, state, iter).None?
       <==> SomeRefused(v, sink, agents, Fold(map[], [Seeded(state)])) && sink(AtRun, 0)
  {
    SeededIsInput(state);
    AnalysisBreaksIff(v, sink, agents, Seeded(state));
    AnalysisSettles(v, sink, agents, state, iter);
  }

  lemma SeededIsInput(state: State)
    requires ListsInLanes(state)
    ensures HasInput(Seeded(state)) && ListsInLanes(Seeded(state))
  {
    assert Findings in Seeded(state);
  }

  lemma AnalysisBreaksIff(v: Validator, sink: Sink, agents: map<Node, Agent>, input: State)
    requires Wired(agents) && ListsInLanes(input) && HasInput(input)
    ensures AnalysisGraph(v, sink, agents, input).Broken? <==> SomeRefused(v, sink, agents, Fold(map[], [input]))
  {
    EnterGoesThrough(input);
    GatherBreaksIff(v, sink, agents, Fold(map[], [input]));
  }

  lemma DiscoveryBreaksIff(v: Validator, sink: Sink, agents: map<Node, Agent>, st: State)
    requires Wired(agents) && Discovery in agents && Channels(st)
    ensures FromDiscovery(v, sink, agents, st).Broken?
       <==> NodeRaises(v, sink, Discovery, agents[Discovery], st) ||
            SomeRefused(v, sink, agents, After(v, Discovery, agents[Discovery], st))
  {
    NodeGoesThrough(v, Discovery, agents[Discovery], st);
    GatherBreaksIff(v, sink, agents, After(v, Discovery, agents[Discovery], st));
  }

  /** The one-shot pipeline gives its agents a state that the caller put something into. */
  predicate HasInput(state: State) {
    exists k :: k in state && !k.Stray?
  }

  lemma ResolvedIsInput(state: State, resolve: Resolver)
    requires HasInput(state) && ListsInLanes(state)
    ensures HasInput(Resolved(state, resolve)) && ListsInLanes(Resolved(state, resolve))
  {
    var k :| k in state && !k.Stray?;
    assert k in Resolved(state, resolve);
  }

  /** The same for the one-shot pipeline: here the events of the idea pre-step and of discovery count as well. */
  lemma PipelineEscapesIff(v: Validator, sink: Sink, agents: map<Node, Agent>, state: State, resolve: Resolver,
                           iter: Item -> Option<seq<Item>>)
    requires Wired(agents) && Discovery in agents && ListsInLanes(state) && HasInput(state)
    ensures RunPipeline(v, sink, agents, state, resolve, iter).None?
       <==> PipelineRefused(v, sink, agents, state, resolve) && sink(AtRun, 0)
  {
    var input := Resolved(state, resolve);
    ResolvedIsInput(state, resolve);
    EnterGoesThrough(input);
    DiscoveryBreaksIff(v, sink, agents, Fold(map[], [input]));
    assert AsList(state, iter).Some?;
    PipelineSettles(v, sink, agents, state, resolve, iter);
  }

  /** Some event of the idea pre-step, of a boundary or of the gate is refused. */
  predicate PipelineRefused(v: Validator, sink: Sink, agents: map<Node, Agent>, state: State, resolve: Resolver)
    requires HasAnalysisAgents(agents) && Discovery in agents
  {
    var st := Fold(map[], [Resolved(state, resolve)]);
    || (IdeaMode(state) && resolve(state).None?)
    || NodeRaises(v, sink, Discovery, agents[Discovery], st)
    || SomeRefused(v, sink, agents, After(v, Discovery, agents[Discovery], st))
  }

  /** When the store refuses every event, an exception escapes from every run, whatever the agents and the caller do. */
  lemma DeadStoreEscapes(v: Validator, sink: Sink, agents: map<Node, Agent>, state: State, resolve: Resolver,
                         iter: Item -> Option<seq<Item>>)
    requires forall place, i: nat :: sink(place, i)
    ensures RunAnalysis(v, sink, agents, state, iter).None?
    ensures RunPipeline(v, sink, agents, state, resolve, iter).None?
  {
    forall node, n: nat | n > 0 ensures Refused(sink, AtNode(node), n) {
      assert sink(AtNode(node), 0);
    }
    DeadAnalysis(v, sink, agents, Seeded(state));
    DeadPipeline(v, sink, agents, state, resolve);
  }

  lemma DeadAnalysis(v: Validator, sink: Sink, agents: map<Node, Agent>, input: State)
    requires forall n: nat :: n > 0 ==> Refused(sink, AtNode(News), n)
    ensures AnalysisGraph(v, sink, agents, input).Broken?
  {
  }

  lemma DeadPipeline(v: Validator, sink: Sink, agents: map<Node, Agent>, state: State, resolve: Resolver)
    requires forall n: nat :: n > 0 ==> Refused(sink, AtNode(Discovery), n)
    ensures PipelineBody(v, sink, agents, state, resolve).Broken?
  {
  }

  // ------------------------------------------------------------------ which report a run ends with

  /** The entry of a dict for `key`: the last one. */
  predicate LastEntry(entries: seq<(Key, Value)>, key: Key, i: nat) {
    i < |entries| && entries[i].0 == key && forall j :: i < j < |entries| ==> entries[j].0 != key
  }

  /** What the model library makes of an object where a report is expected. */
  predicate IsReportOf(v: Validator, x: Item, item: Item) {
    if x.AReport? then item == x else v(ReportModel, x) == Some(item) && item.AReport?
  }

  /** The answer holds, under the report key, an object that is the report `item` or validates to it. */
  ghost predicate AnswersWith(v: Validator, output: Output, item: Item) {
    output.Dict? && exists i: nat :: LastEntry(output.entries, FinalReport, i) && ReportAt(v, output.entries[i].1, item)
  }

  predicate ReportAt(v: Validator, value: Value, item: Item) {
    value.One? && IsReportOf(v, value.item, item)
  }

  /** The answer holds nothing under the report key. */
  predicate SaysNothing(output: Output) {
    output.ReturnsNone? || (output.Dict? && forall i :: 0 <= i < |output.entries| ==> output.entries[i].0 != FinalReport)
  }

  lemma CoerceIff(v: Validator, x: Item, item: Item)
    ensures Coerce(v, ReportModel, x) == Some(item) <==> IsReportOf(v, x, item)
  {
  }

  lemma {:induction false} LookupIsLast(entries: seq<(Key, Value)>, key: Key) returns (i: nat)
    ensures if i < |entries| then LastEntry(entries, key, i) && Lookup(entries, key) == entries[i].1
            else Lookup(entries, key) == Nothing && forall j :: 0 <= j < |entries| ==> entries[j].0 != key
  {
    var n := |entries| - 1;
    if entries == [] {
      i := 0;
    } else if entries[n].0 == key {
      i := n;
    } else {
      i := LookupIsLast(entries[..n], key);
      if i >= n {
        i := n + 1;
        assert forall j :: 0 <= j < n ==> entries[..n][j] == entries[j];
      }
    }
  }

  lemma OneLastEntry(entries: seq<(Key, Value)>, key: Key, i: nat, j: nat)
    requires LastEntry(entries, key, i) && LastEntry(entries, key, j)
    ensures i == j
  {
  }

  const RETRYING := One(Other("True"))

  /** The repair that the gate sees is the report with which the retry answers under the report key, if it does. */
  lemma RepairedIff(v: Validator, strategist: Agent, st: State, item: Item)
    ensures Repaired(v, strategist, st) == One(item) <==> AnswersWith(v, strategist(st[RETRY := RETRYING]), item)
  {
    var output := strategist(st[RETRY := RETRYING]);
    if output.Dict? {
      var i := LookupIsLast(output.entries, FinalReport);
      if i < |output.entries| && output.entries[i].1.One? {
        CoerceIff(v, output.entries[i].1.item, item);
      }
      forall j: nat | LastEntry(output.entries, FinalReport, j) ensures i < |output.entries| && j == i {
        OneLastEntry(output.entries, FinalReport, i, j);
      }
    }
  }

  /** The gate takes a report from the retry exactly when the first one has a problem and the retry answers, under the
      report key, with one that passes; it is this one that it takes. */
  lemma GateTakesIff(v: Validator, strategist: Agent, st: State, item: Item)
    ensures Gate(v, strategist, st) == (map[FinalReport := One(item)], true) <==>
      && ReportProblems(Get(st, FinalReport)) != []
      && AnswersWith(v, strategist(st[RETRY := RETRYING]), item)
      && ReportProblems(One(item)) == []
  {
    RepairedIff(v, strategist, st, item);
    assert NO_REPORT[FinalReport] == Nothing;
    var delta := Gate(v, strategist, st).0;
    if delta == map[FinalReport := One(item)] {
      assert delta[FinalReport] == One(item);
    }
  }

  lemma {:induction false} AppliedIsLast(v: Validator, spec: map<Key, Expected>, entries: seq<(Key, Value)>, i: nat)
    requires FinalReport in spec && LastEntry(entries, FinalReport, i)
    ensures var out := Applied(v, spec, entries).out;
      FinalReport in out && out[FinalReport] == Outcome(v, spec, FinalReport, entries[i].1)
  {
    if i < |entries| - 1 {
      AppliedIsLast(v, spec, entries[..|entries| - 1], i);
    }
  }

  lemma {:induction false} AppliedSaysNothing(v: Validator, spec: map<Key, Expected>, entries: seq<(Key, Value)>)
    requires forall i :: 0 <= i < |entries| ==> entries[i].0 != FinalReport
    ensures FinalReport !in Applied(v, spec, entries).out
  {
    if entries != [] {
      AppliedSaysNothing(v, spec, entries[..|entries| - 1]);
    }
  }

  /** What the strategist node writes as the report: what its agent answers with, nothing where that does not validate. */
  lemma NodeReport(v: Validator, strategist: Agent, st: State, item: Item)
    ensures var out := Guarded(v, Strategist, strategist, st);
      && (FinalReport !in out <==> SaysNothing(strategist(st)))
      && (FinalReport in out ==> (out[FinalReport] == One(item) <==> AnswersWith(v, strategist(st), item)))
  {
    var output := strategist(st);
    if output.Dict? {
      var spec, entries := Spec(Strategist), output.entries;
      var i := LookupIsLast(entries, FinalReport);
      if i < |entries| {
        AppliedIsLast(v, spec, entries, i);
        OutcomeIff(v, entries[i].1, item);
        forall j: nat | LastEntry(entries, FinalReport, j) ensures j == i {
          OneLastEntry(entries, FinalReport, i, j);
        }
      } else {
        AppliedSaysNothing(v, spec, entries);
      }
    }
  }

  lemma OutcomeIff(v: Validator, value: Value, item: Item)
    ensures Outcome(v, Spec(Strategist), FinalReport, value) == One(item) <==> ReportAt(v, value, item)
  {
    if value.One? {
      CoerceIff(v, value.item, item);
    }
  }

  /** The report in the state after the strategist node is what the agent answered with, or, if it said nothing, what was
      there before. */
  lemma ReportAfter(v: Validator, strategist: Agent, st: State, item: Item)
    requires OwnKeys(Strategist, strategist(st)) && Channels(st)
    ensures Get(After(v, Strategist, strategist, st), FinalReport) == One(item) <==>
      AnswersWith(v, strategist(st), item) || (SaysNothing(strategist(st)) && Get(st, FinalReport) == One(item))
  {
    NodeReport(v, strategist, st, item);
    OneAtKey(st, Guarded(v, Strategist, strategist, st), FinalReport);
  }

  predicate Passes(item: Item) {
    ReportProblems(One(item)) == []
  }

  /** The report in `st` has a problem, and the retry answers with `item`, which passes. */
  ghost predicate SecondPasses(v: Validator, strategist: Agent, st: State, item: Item) {
    && ReportProblems(Get(st, FinalReport)) != []
    && AnswersWith(v, strategist(st[RETRY := RETRYING]), item)
    && Passes(item)
  }

  /** From the strategist on, when nothing is refused: a first answer that passes is the report after one call; otherwise a
      second answer that passes is the report after two; otherwise there is none. */
  lemma StrategistReports(v: Validator, sink: Sink, strategist: Agent, st: State, item: Item)
    requires OwnKeys(Strategist, strategist(st)) && Channels(st)
    requires FromStrategist(v, sink, strategist, st).Finished?
    ensures var st3 := After(v, Strategist, strategist, st);
      var g := FromStrategist(v, sink, strategist, st);
      && (Get(st3, FinalReport) == One(item) && Passes(item) ==> g.calls == 1 && Get(g.st, FinalReport) == One(item))
      && (SecondPasses(v, strategist, st3, item) ==> g.calls == 2 && Get(g.st, FinalReport) == One(item))
      && (Get(g.st, FinalReport) == One(item) && g.calls == 1 ==> Get(st3, FinalReport) == One(item) && Passes(item))
      && (Get(g.st, FinalReport) == One(item) && g.calls != 1 ==> SecondPasses(v, strategist, st3, item))
  {
    NodeGoesThrough(v, Strategist, strategist, st);
    GateReports(v, sink, strategist, After(v, Strategist, strategist, st), item);
  }

  lemma GateReports(v: Validator, sink: Sink, strategist: Agent, st3: State, item: Item)
    requires Channels(st3) && FromGate(v, sink, strategist, st3).Finished?
    ensures var g := FromGate(v, sink, strategist, st3);
      && (Get(st3, FinalReport) == One(item) && Passes(item) ==> g.calls == 1 && Get(g.st, FinalReport) == One(item))
      && (SecondPasses(v, strategist, st3, item) ==> g.calls == 2 && Get(g.st, FinalReport) == One(item))
      && (Get(g.st, FinalReport) == One(item) && g.calls == 1 ==> Get(st3, FinalReport) == One(item) && Passes(item))
      && (Get(g.st, FinalReport) == One(item) && g.calls != 1 ==> SecondPasses(v, strategist, st3, item))
  {
    FinishedGate(v, sink, strategist, st3);
    RepairedIff(v, strategist, st3, item);
    assert ReportProblems(Nothing) == [Missing];
  }

  lemma FinishedGate(v: Validator, sink: Sink, strategist: Agent, st: State)
    requires Channels(st) && FromGate(v, sink, strategist, st).Finished?
    ensures var g := FromGate(v, sink, strategist, st);
      && Get(g.st, FinalReport) == GateReport(v, strategist, st)
      && g.calls == if ReportProblems(Get(st, FinalReport)) != [] then 2 else 1
  {
    GateDecides(v, strategist, st);
    QuietGateCalls(v, sink, strategist, st);
  }

  lemma QuietGateCalls(v: Validator, sink: Sink, strategist: Agent, st: State)
    requires !GateRaises(v, sink, strategist, st)
    ensures CallsAtGate(sink, Gate(v, strategist, st).1) == if ReportProblems(Get(st, FinalReport)) != [] then 2 else 1
  {
    assert !sink(AtGate, 0);
    assert ReportProblems(Get(st, FinalReport)) != [] ==> !sink(AtGate, 1);
  }

  /** The state in which the strategist is first called, when the branches gather from `st` on. */
  function BeforeStrategist(v: Validator, agents: map<Node, Agent>, st: State): State
    requires HasAnalysisAgents(agents)
  {
    After(v, Merge, agents[Merge], Fold(st, GatherDeltas(v, agents, st)))
  }

  /** A run that branched out from `st` ended as its strategist's answers say: a first answer that passes the checks is its
      report, after one call; if the first answer has a problem, a second one that passes is, after two; and a report with
      which it ended is one of these. */
  ghost predicate ReportsTheAnswer(v: Validator, agents: map<Node, Agent>, st: State, run: Run, item: Item)
    requires HasAnalysisAgents(agents)
  {
    var strategist, st2 := agents[Strategist], BeforeStrategist(v, agents, st);
    var st3, report := After(v, Strategist, strategist, st2), Get(run.final, FinalReport);
    && (AnswersWith(v, strategist(st2), item) && Passes(item) ==> run.calls == 1 && report == One(item))
    && (SecondPasses(v, strategist, st3, item) ==> run.calls == 2 && report == One(item))
    && (report == One(item) && run.calls != 1 ==> SecondPasses(v, strategist, st3, item))
    && (report == One(item) && run.calls == 1 ==>
          && Passes(item)
          && (AnswersWith(v, strategist(st2), item) || (SaysNothing(strategist(st2)) && Get(st2, FinalReport) == One(item))))
  }

  lemma GatherReports(v: Validator, sink: Sink, agents: map<Node, Agent>, st: State, item: Item)
    requires Wired(agents) && Channels(st) && !SomeRefused(v, sink, agents, st)
    ensures var g := FromGather(v, sink, agents, st);
      g.Finished? && ReportsTheAnswer(v, agents, st, Run(g.st, g.calls), item)
  {
    GatherBreaksIff(v, sink, agents, st);
    GatherGoesThrough(v, agents, st);
    CommitChannels(st, GatherDeltas(v, agents, st));
    NodeGoesThrough(v, Merge, agents[Merge], Fold(st, GatherDeltas(v, agents, st)));
    var strategist, st2 := agents[Strategist], BeforeStrategist(v, agents, st);
    assert FromGather(v, sink, agents, st) == FromStrategist(v, sink, strategist, st2);
    ReportAfter(v, strategist, st2, item);
    StrategistReports(v, sink, strategist, st2, item);
  }

  /** So it is with phase 2, with wired agents and when no event is refused. */
  lemma AnalysisReportsTheAnswer(v: Validator, sink: Sink, agents: map<Node, Agent>, state: State,
                                 iter: Item -> Option<seq<Item>>, item: Item)
    requires Wired(agents) && ListsInLanes(state) && !SomeRefused(v, sink, agents, Fold(map[], [Seeded(state)]))
    ensures var r := RunAnalysis(v, sink, agents, state, iter);
      r.Some? && ReportsTheAnswer(v, agents, Fold(map[], [Seeded(state)]), r.value, item)
  {
    SeededIsInput(state);
    EnterGoesThrough(Seeded(state));
    GatherReports(v, sink, agents, Fold(map[], [Seeded(state)]), item);
  }

  /** And with the one-shot pipeline. */
  lemma PipelineReportsTheAnswer(v: Validator, sink: Sink, agents: map<Node, Agent>, state: State, resolve: Resolver,
                                 iter: Item -> Option<seq<Item>>, item: Item)
    requires Wired(agents) && Discovery in agents && ListsInLanes(state) && HasInput(state)
    requires !PipelineRefused(v, sink, agents, state, resolve)
    ensures var r := RunPipeline(v, sink, agents, state, resolve, iter);
      var st := Fold(map[], [Resolved(state, resolve)]);
      r.Some? && ReportsTheAnswer(v, agents, After(v, Discovery, agents[Discovery], st), r.value, item)
  {
    var input := Resolved(state, resolve);
    ResolvedIsInput(state, resolve);
    EnterGoesThrough(input);
    NodeGoesThrough(v, Discovery, agents[Discovery], Fold(map[], [input]));
    GatherReports(v, sink, agents, After(v, Discovery, agents[Discovery], Fold(map[], [input])), item);
  }

  // ------------------------------------------------------------------ what the findings tell

  /** What one entry of an answer adds to the findings: the texts an agent lists there, or a key whose value does not
      validate. */
  predicate Tells(v: Validator, spec: map<Key, Expected>, key: Key, value: Value, x: Item) {
    if key == Findings then value.List? && exists y :: y in value.items && x == Note(Reported(y))
    else key in spec && Checked(v, value, spec[key]).None? && x == Note(InvalidAt(key))
  }

  lemma TextsIff(items: seq<Item>, x: Item)
    ensures x in Texts(items) <==> exists y :: y in items && x == Note(Reported(y))
  {
    forall y | y in items ensures Note(Reported(y)) in Texts(items) {
      var i :| 0 <= i < |items| && items[i] == y;
      assert Texts(items)[i] == Note(Reported(y));
    }
  }

  lemma EntryTellsIff(v: Validator, spec: map<Key, Expected>, d: Delta, key: Key, value: Value, x: Item)
    ensures x in ApplyEntry(v, spec, d, key, value).findings <==> x in d.findings || Tells(v, spec, key, value, x)
  {
    if key == Findings && value.List? {
      TextsIff(value.items, x);
    }
  }

  /** The findings of an answer are exactly those that some entry of it adds. */
  lemma {:induction false} FindingsIff(v: Validator, spec: map<Key, Expected>, entries: seq<(Key, Value)>, x: Item)
    ensures x in Applied(v, spec, entries).findings <==>
            exists i :: 0 <= i < |entries| && Tells(v, spec, entries[i].0, entries[i].1, x)
  {
    if entries != [] {
      var n := |entries| - 1;
      var init := entries[..n];
      FindingsIff(v, spec, init, x);
      EntryTellsIff(v, spec, Applied(v, spec, init), entries[n].0, entries[n].1, x);
      assert forall i :: 0 <= i < n ==> init[i] == entries[i];
    }
  }

  /** An item is kept as what it validates to, or dropped. */
  lemma KeptOne(v: Validator, model: Model, x: Item)
    ensures Kept(v, model, [x]) == match Coerce(v, model, x) case Some(y) => [y] case None => []
  {
    assert [x][..0] == [];
  }

  /** The items of a list are checked one by one, in order. */
  lemma {:induction false} KeptOneByOne(v: Validator, model: Model, a: seq<Item>, b: seq<Item>)
    ensures Kept(v, model, a + b) == Kept(v, model, a) + Kept(v, model, b)
  {
    if b == [] {
      assert a + b == a;
    } else {
      assert (a + b)[..|a + b| - 1] == a + b[..|b| - 1];
      KeptOneByOne(v, model, a, b[..|b| - 1]);
    }
  }

  // ------------------------------------------------------------------ what breaks a superstep

  lemma {:induction false} WritersCount(deltas: seq<State>, key: Key, i: nat, j: nat)
    requires i <= j < |deltas| && key in deltas[i] && key in deltas[j]
    ensures |Writes(deltas, key)| >= if i < j then 2 else 1
  {
    var n := |deltas| - 1;
    if j < n {
      WritersCount(deltas[..n], key, i, j);
    } else if i < n {
      WritersCount(deltas[..n], key, i, i);
    }
  }

  /** Two deltas of one superstep that write the same plain key break it. */
  lemma TwoWritersBreak(st: State, deltas: seq<State>, key: Key, i: nat, j: nat)
    requires i < j < |deltas| && key in deltas[i] && key in deltas[j] && !IsLane(key) && !key.Stray?
    ensures Commit(st, deltas) == Err(TwoWriters)
  {
    WritersCount(deltas, key, i, j);
    assert !Fine(st, Writes(deltas, key), key);
  }

  // ------------------------------------------------------------------ what becomes of the caller's state

  /** Seeding adds the lanes that the caller left out, empty, and changes nothing. */
  lemma SeededIff(state: State, k: Key)
    ensures k in Seeded(state) <==> k in state || IsLane(k)
    ensures k in Seeded(state) ==> Seeded(state)[k] == if k in state then state[k] else List([])
  {
  }

  /** What counts as nothing: no value, an empty list, an empty text. */
  predicate SaysSomething(state: State, key: Key) {
    key in state && state[key] !in {Nothing, List([]), One(Other(""))}
  }

  /** The idea pre-step runs exactly for a state with an idea and no company, and gives it a company and a domain. */
  lemma ResolvedIff(state: State, resolve: Resolver, company: Value, domain: Value)
    requires resolve(state) == Some((company, domain))
    ensures Resolved(state, resolve) ==
      if SaysSomething(state, Idea) && !SaysSomething(state, Company)
      then state[Company := company][Domain := domain] else state
  {
  }

  // ------------------------------------------------------------------ which events a node writes

  lemma RefusedIff(sink: Sink, place: Place)
    ensures Refused(sink, place, 1) <==> sink(place, 0)
    ensures Refused(sink, place, 2) <==> sink(place, 0) || sink(place, 1)
    ensures Refused(sink, place, 3) <==> sink(place, 0) || sink(place, 1) || sink(place, 2)
    ensures Refused(sink, place, 4) <==> sink(place, 0) || sink(place, 1) || sink(place, 2) || sink(place, 3)
  {
  }

  /** Checking a value writes one event for each item dropped from a list, or one for a value that does not validate. */
  lemma ComplaintsIff(v: Validator, value: Value, e: Expected)
    ensures e.ListOf? && value.List? ==> Complaints(v, value, e) == |value.items| - |Kept(v, e.model, value.items)|
    ensures !(e.ListOf? && value.List?) ==>
      Complaints(v, value, e) <= 1 && (Complaints(v, value, e) == 1 <==> Checked(v, value, e).None?)
  {
    if e.ListOf? && value.List? {
      KeptOrDropped(v, e.model, value.items);
    }
  }

  /** A boundary writes an event before its agent runs and one at its end; one more when the agent fails; and those of the
      checks, when the agent answers with a dict. */
  lemma NodeRaisesIff(v: Validator, sink: Sink, node: Node, agent: Agent, st: State)
    ensures var at := AtNode(node);
      match agent(st)
      case Raises => NodeRaises(v, sink, node, agent, st) <==> sink(at, 0) || sink(at, 1) || sink(at, 2)
      case NotADict(_) => NodeRaises(v, sink, node, agent, st) <==> sink(at, 0) || sink(at, 1) || sink(at, 2)
      case ReturnsNone => NodeRaises(v, sink, node, agent, st) <==> sink(at, 0) || sink(at, 1)
      case Dict(entries) =>
        NodeRaises(v, sink, node, agent, st) <==>
          sink(at, 0) || sink(at, 1) || exists i: nat :: 2 <= i < 2 + AnswerEvents(v, Spec(node), entries) && sink(at, i)
  {
    RefusedIff(sink, AtNode(node));
  }

  /** The gate writes one event for a report that passes; two before a retry and one after it; and one more when the retry
      raises, answers with something that is no dict and not empty either, or with a report that does not validate. */
  lemma GateRaisesIff(v: Validator, sink: Sink, strategist: Agent, st: State)
    ensures GateRaises(v, sink, strategist, st) <==>
      || sink(AtGate, 0)
      || (ReportProblems(Get(st, FinalReport)) != [] &&
           (sink(AtGate, 1) || sink(AtGate, 2) || (RetryRaises(v, strategist(st[RETRY := RETRYING])) && sink(AtGate, 3))))
  {
    RefusedIff(sink, AtGate);
    RepairRaisesIff(v, strategist, st);
  }

  ghost predicate RetryRaises(v: Validator, output: Output) {
    match output
    case Raises => true
    case NotADict(falsy) => !falsy
    case ReturnsNone => false
    case Dict(entries) => Lookup(entries, FinalReport) != Nothing && forall item :: !AnswersWith(v, output, item)
  }

  lemma RepairRaisesIff(v: Validator, strategist: Agent, st: State)
    ensures RepairRaises(v, strategist, st) <==> RetryRaises(v, strategist(st[RETRY := RETRYING]))
  {
    var output := strategist(st[RETRY := RETRYING]);
    if output.Dict? {
      RetryAnswersIff(v, output);
    }
  }

  lemma RetryAnswersIff(v: Validator, output: Output)
    requires output.Dict?
    ensures var candidate := Lookup(output.entries, FinalReport);
      (exists item :: AnswersWith(v, output, item)) <==> candidate.One? && Coerce(v, ReportModel, candidate.item).Some?
  {
    var candidate := Lookup(output.entries, FinalReport);
    var i := LookupIsLast(output.entries, FinalReport);
    forall item ensures AnswersWith(v, output, item) <==> i < |output.entries| && ReportAt(v, candidate, item) {
      forall j: nat | LastEntry(output.entries, FinalReport, j) ensures i < |output.entries| && j == i {
        OneLastEntry(output.entries, FinalReport, i, j);
      }
    }
    if candidate.One? {
      forall item ensures Coerce(v, ReportModel, candidate.item) == Some(item) <==> IsReportOf(v, candidate.item, item) {
        CoerceIff(v, candidate.item, item);
      }
      if Coerce(v, ReportModel, candidate.item).Some? {
        assert AnswersWith(v, output, Coerce(v, ReportModel, candidate.item).value);
      }
    }
  }

  /** A run whose graph broke ends with what the caller handed in, no report, and one more finding. */
  lemma BrokenKeepsTheInput(g: Graph, sink: Sink, input: State, iter: Item -> Option<seq<Item>>)
    requires g.Broken? && !sink(AtRun, 0) && (Findings in input ==> input[Findings].List?)
    ensures var r := Outer(g, sink, input, iter);
      && r.Some? && r.value.calls == g.calls
      && r.value.final.Keys == input.Keys + {FinalReport, Findings}
      && (forall k :: k in input && k != FinalReport && k != Findings ==> r.value.final[k] == input[k])
      && r.value.final[FinalReport] == Nothing
      && r.value.final[Findings] == List(Base(input, Findings) + [Note(DegradedRun)])
  {
  }
}
