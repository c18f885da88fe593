/** The search chain (app/core/search_chain.py): cache, then Tavily, then Serper, then a direct scrape, then nothing. The
    providers are oracles; a cache key is the normalised query, the hash being injective. */
module SearchChain {
  import opened Wrappers
  import opened Text
  import Cache

  datatype Row = Row(title: string, url: string, content: string)

  /** What a provider does: no answer, rows (maybe none), or an exception that is not its own to handle. */
  datatype Reply = NoAnswer | Rows(rows: seq<Row>) | Raises

  /** The surroundings of one search: the tiers of the cache at the read and at the write, and the providers. `scrape` is
      `None` when no word of the query names a domain. */
  datatype Oracle = Oracle(hotUp: bool, coldUp: bool, hotOk: bool, coldOk: bool,
                           tavily: Reply, serper: Reply, scrape: Option<Reply>, mock: seq<Row>)

  /** `Crashed` is an exception that leaves `search`. */
  datatype Outcome = Returned(rows: seq<Row>) | Crashed

  /** The state of the module. `log` records what the providers answered, under the normalised query. */
  datatype State = State(tiers: Cache.Tiers<string, seq<Row>>, searches: nat, hits: nat, log: seq<(string, seq<Row>)>)

  datatype Config = Config(hasHot: bool, mock: bool, norm: string -> string)

  /** The providers in order: the first that answers with rows wins, and an exception ends the search. */
  function FirstOf(replies: seq<Reply>): Outcome {
    if replies == [] then Returned([])
    else
      match replies[0]
      case Raises => Crashed
      case NoAnswer => FirstOf(replies[1..])
      case Rows(rows) => if rows != [] then Returned(rows) else FirstOf(replies[1..])
  }

  function Replies(o: Oracle): seq<Reply> {
    [o.tavily, o.serper] + (if o.scrape.Some? then [o.scrape.value] else [])
  }

  function Provided(c: Config, o: Oracle): Outcome {
    if c.mock then Returned(o.mock) else FirstOf(Replies(o))
  }

  /** One search, as a whole. */
  function Searched(c: Config, s: State, query: string, o: Oracle): (State, Outcome) {
    var k := c.norm(query);
    var cached := Cache.Answer(s.tiers, k, c.hasHot && o.hotUp, o.coldUp);
    if cached.Some? then (s.(hits := s.hits + 1), Returned(cached.value))
    else
      var s' := s.(searches := s.searches + 1);
      var outcome := Provided(c, o);
      if outcome.Crashed? || outcome.rows == [] then (s', outcome)
      else (s'.(tiers := Cache.Step(s.tiers, Cache.Set(k, outcome.rows, c.hasHot && o.hotOk, o.coldOk)),
                log := s.log + [(k, outcome.rows)]), outcome)
  }

  class Chain {
    const config: Config
    const cache: Cache.TwoTier<string, seq<Row>>
    var searches: nat
    var hits: nat
    ghost var log: seq<(string, seq<Row>)>

    constructor (config: Config)
      ensures this.config == config && Valid() && fresh(cache)
      ensures Cache.EmptyAt(Value().tiers) && searches == hits == 0 && log == []
    {
      this.config := config;
      cache := new Cache.TwoTier(config.hasHot);
      searches, hits := 0, 0;
      log := [];
    }

    predicate Valid()
      reads this
    {
      cache.hasHot == config.hasHot
    }

    ghost function Value(): State
      reads this, cache
    {
      State(cache.State(), searches, hits, log)
    }

    method Keep(k: string, rows: seq<Row>, o: Oracle)
      requires Valid()
      modifies `log, cache
      ensures Value() == old(Value()).(
        tiers := Cache.Step(old(Value()).tiers, Cache.Set(k, rows, config.hasHot && o.hotOk, o.coldOk)),
        log := old(log) + [(k, rows)])
    {
      cache.Put(k, rows, o.hotOk, o.coldOk);
      log := log + [(k, rows)];
    }

    /** `search`. */
    method Search(query: string, o: Oracle) returns (r: Outcome)
      requires Valid()
      modifies this, cache
      ensures (Value(), r) == Searched(config, old(Value()), query, o)
    {
      var k := config.norm(query);
      var cached := cache.Get(k, o.hotUp, o.coldUp);
      if cached.Some? {
        hits := hits + 1;
        return Returned(cached.value);
      }
      searches := searches + 1;
      if config.mock {
        if o.mock != [] {
          Keep(k, o.mock, o);
        }
        return Returned(o.mock);
      }
      ChainOrder(o);
      if o.tavily.Raises? {
        return Crashed;
      }
      if o.tavily.Rows? && o.tavily.rows != [] {
        Keep(k, o.tavily.rows, o);
        return Returned(o.tavily.rows);
      }
      if o.serper.Raises? {
        return Crashed;
      }
      if o.serper.Rows? && o.serper.rows != [] {
        Keep(k, o.serper.rows, o);
        return Returned(o.serper.rows);
      }
      if o.scrape.Some? {
        if o.scrape.value.Raises? {
          return Crashed;
        }
        if o.scrape.value.Rows? && o.scrape.value.rows != [] {
          Keep(k, o.scrape.value.rows, o);
          return Returned(o.scrape.value.rows);
        }
      }
      return Returned([]);
    }

    /** `search_all`: the pool runs the searches in any `order`, and the results come back in the order of the queries; a
        search that raises contributes nothing. */
    method SearchAll(queries: seq<string>, oracles: seq<Oracle>, order: seq<nat>) returns (out: seq<Row>)
      requires Valid() && |oracles| == |Asked(queries)| && IsOrder(order, |oracles|)
      modifies this, cache
      ensures var (s, outcomes) := InOrder(config, old(Value()), Asked(queries), oracles, order);
        Value() == s && out == Flat(outcomes, |oracles|)
    {
      var asked := Asked(queries);
      var results: map<nat, Outcome> := map[];
      for i := 0 to |order|
        invariant Valid()
        invariant (Value(), results) == InOrder(config, old(Value()), asked, oracles, order[..i])
      {
        assert order[..i + 1][..i] == order[..i];
        var outcome := Search(asked[order[i]], oracles[order[i]]);
        results := results[order[i] := outcome];
      }
      assert order[..|order|] == order;
      out := [];
      for i := 0 to |asked|
        invariant out == Flat(results, i)
      {
        out := out + (if i in results && results[i].Returned? then results[i].rows else []);
      }
    }
  }

  lemma ChainOrder(o: Oracle)
    ensures FirstOf(Replies(o)) ==
      if o.tavily.Raises? then Crashed
      else if o.tavily.Rows? && o.tavily.rows != [] then Returned(o.tavily.rows)
      else if o.serper.Raises? then Crashed
      else if o.serper.Rows? && o.serper.rows != [] then Returned(o.serper.rows)
      else if o.scrape.None? then Returned([])
      else if o.scrape.value.Raises? then Crashed
      else if o.scrape.value.Rows? then Returned(o.scrape.value.rows)
      else Returned([])
  {
    var rest := if o.scrape.Some? then [o.scrape.value] else [];
    assert Replies(o)[1..] == [o.serper] + rest;
    assert ([o.serper] + rest)[1..] == rest;
    assert FirstOf([o.serper] + rest) ==
      if o.serper.Raises? then Crashed
      else if o.serper.Rows? && o.serper.rows != [] then Returned(o.serper.rows)
      else FirstOf(rest);
    if o.scrape.Some? {
      assert rest[1..] == [];
    }
  }

  // ------------------------------------------------------------------ batches

  /** The queries that are asked: blank ones are not. */
  function Asked(queries: seq<string>): seq<string> {
    if queries == [] then []
    else
      var last := queries[|queries| - 1];
      Asked(queries[..|queries| - 1]) + (if Strip(last) != "" then [last] else [])
  }

  ghost predicate IsOrder(order: seq<nat>, n: nat) {
    Distinct(order) && (forall i :: 0 <= i < |order| ==> order[i] < n) && forall i: nat :: i < n ==> i in order
  }

  function InOrder(c: Config, s: State, asked: seq<string>, oracles: seq<Oracle>, order: seq<nat>)
    : (State, map<nat, Outcome>)
    requires |oracles| == |asked| && forall i :: 0 <= i < |order| ==> order[i] < |asked|
  {
    if order == [] then (s, map[])
    else
      var n := |order| - 1;
      var (s1, results) := InOrder(c, s, asked, oracles, order[..n]);
      var (s2, outcome) := Searched(c, s1, asked[order[n]], oracles[order[n]]);
      (s2, results[order[n] := outcome])
  }

  function Flat(results: map<nat, Outcome>, n: nat): seq<Row> {
    if n == 0 then []
    else Flat(results, n - 1) + (if n - 1 in results && results[n - 1].Returned? then results[n - 1].rows else [])
  }

  // ------------------------------------------------------------------ provenance

  /** Everything cached is rows, at least one, that a provider once gave for the same normalised query. */
  ghost predicate Sourced(s: State) {
    && (forall k :: k in s.tiers.hot ==> s.tiers.hot[k] != [] && (k, s.tiers.hot[k]) in s.log)
    && (forall k :: k in s.tiers.cold ==> s.tiers.cold[k].value != [] && (k, s.tiers.cold[k].value) in s.log)
    && (forall e :: e in s.log ==> e.1 != [])
  }

  /** A history of the module: searches, and whatever befalls the tiers between them except foreign writes. */
  datatype Event = Search(query: string, oracle: Oracle) | Weather(op: Cache.Op<string, seq<Row>>)

  predicate IsWeather(e: Event) {
    e.Weather? ==> !e.op.Set?
  }

  function After(c: Config, s: State, e: Event): State {
    match e
    case Search(query, o) => Searched(c, s, query, o).0
    case Weather(op) => s.(tiers := Cache.Step(s.tiers, op))
  }

  function History(c: Config, s: State, events: seq<Event>): State {
    if events == [] then s else After(c, History(c, s, events[..|events| - 1]), events[|events| - 1])
  }

  function Calls(events: seq<Event>): nat {
    if events == [] then 0
    else Calls(events[..|events| - 1]) + (if events[|events| - 1].Search? then 1 else 0)
  }

  lemma SearchKeeps(c: Config, s: State, query: string, o: Oracle)
    requires Sourced(s)
    ensures var (s', r) := Searched(c, s, query, o);
      && Sourced(s')
      && s.log <= s'.log
      && s'.hits + s'.searches == s.hits + s.searches + 1
      && (r.Returned? && r.rows != [] ==> (c.norm(query), r.rows) in s'.log)
      && (r.Returned? && r.rows == [] ==> s'.tiers == s.tiers)
  {
    var (s', r) := Searched(c, s, query, o);
    if s'.log != s.log {
      assert s'.log[|s.log|] == (c.norm(query), r.rows);
      assert forall e :: e in s'.log <==> e in s.log || e == (c.norm(query), r.rows);
    }
  }

  lemma {:induction false} HistoryKeeps(c: Config, s: State, events: seq<Event>)
    requires Sourced(s) && forall i :: 0 <= i < |events| ==> IsWeather(events[i])
    ensures Sourced(History(c, s, events))
    ensures History(c, s, events).hits + History(c, s, events).searches == s.hits + s.searches + Calls(events)
  {
    if events != [] {
      var n := |events| - 1;
      HistoryKeeps(c, s, events[..n]);
      var s' := History(c, s, events[..n]);
      match events[n] {
        case Search(query, o) => SearchKeeps(c, s', query, o);
        case Weather(op) =>
          assert IsWeather(events[n]);
          assert forall k :: k in After(c, s', events[n]).tiers.hot ==>
            k in s'.tiers.hot && After(c, s', events[n]).tiers.hot[k] == s'.tiers.hot[k];
      }
    }
  }

  /** After any history, a search that returns rows returns rows that a provider gave for the same normalised query; an
      empty result never changes the cache; and hits and searches together count the calls. */
  lemma RowsComeFromProviders(c: Config, s: State, events: seq<Event>, query: string, o: Oracle)
    requires Cache.EmptyAt(s.tiers) && s.log == [] && s.hits == s.searches == 0
    requires forall i :: 0 <= i < |events| ==> IsWeather(events[i])
    ensures var before := History(c, s, events);
      var (after, r) := Searched(c, before, query, o);
      && (r.Returned? && r.rows != [] ==> (c.norm(query), r.rows) in after.log)
      && (r.Returned? && r.rows == [] ==> after.tiers == before.tiers)
      && after.hits + after.searches == Calls(events) + 1
  {
    HistoryKeeps(c, s, events);
    SearchKeeps(c, History(c, s, events), query, o);
  }

  /** Right after the write of `o`, the first tier that answers a read of `o'` is one that the write reached. */
  predicate Reached(c: Config, s: State, k: string, o: Oracle, o': Oracle) {
    if c.hasHot && o'.hotUp && (o.hotOk || k in s.tiers.hot) then o.hotOk else o.coldOk && o'.coldUp
  }

  /** What was found is found again, without asking a provider, by any spelling of the query that normalises to the same
      key, if the first tier to answer is one that the write reached, hot or Postgres; and otherwise the next search
      yields an older value or asks the providers. */
  lemma FoundAgain(c: Config, s: State, query: string, o: Oracle, query': string, o': Oracle)
    requires c.norm(query) == c.norm(query')
    requires var r := Searched(c, s, query, o).1; r.Returned? && r.rows != []
    requires Searched(c, s, query, o).0.searches == s.searches + 1
    ensures var (s', r) := Searched(c, s, query, o);
      var k := c.norm(query);
      if Reached(c, s, k, o, o')
      then Searched(c, s', query', o') == (s'.(hits := s'.hits + 1), r)
      else Searched(c, s', query', o').0.searches == s'.searches + 1 ||
           (k in s.tiers.hot && Searched(c, s', query', o').1 == Returned(s.tiers.hot[k])) ||
           (k in s.tiers.cold && Searched(c, s', query', o').1 == Returned(s.tiers.cold[k].value))
  {
  }

  // ------------------------------------------------------------------ batches, whatever the order

  lemma {:induction false} BatchKeeps(c: Config, s: State, asked: seq<string>, oracles: seq<Oracle>, order: seq<nat>)
    requires |oracles| == |asked| && forall i :: 0 <= i < |order| ==> order[i] < |asked|
    requires Sourced(s)
    ensures var (s', results) := InOrder(c, s, asked, oracles, order);
      && Sourced(s') && s.log <= s'.log
      && (forall i :: i in results <==> i in order)
      && (forall i :: i in results && results[i].Returned? && results[i].rows != [] ==>
            (c.norm(asked[i]), results[i].rows) in s'.log)
  {
    if order != [] {
      var n := |order| - 1;
      assert order == order[..n] + [order[n]];
      BatchKeeps(c, s, asked, oracles, order[..n]);
      var (s1, results) := InOrder(c, s, asked, oracles, order[..n]);
      SearchKeeps(c, s1, asked[order[n]], oracles[order[n]]);
    }
  }

  /** Every row of a batch comes from a provider, for one of its queries, in whatever order the pool ran them. */
  lemma BatchComesFromProviders(c: Config, s: State, asked: seq<string>, oracles: seq<Oracle>, order: seq<nat>, row: Row)
    requires |oracles| == |asked| && IsOrder(order, |asked|) && Sourced(s)
    requires row in Flat(InOrder(c, s, asked, oracles, order).1, |asked|)
    ensures exists i, rows :: 0 <= i < |asked| && row in rows &&
              (c.norm(asked[i]), rows) in InOrder(c, s, asked, oracles, order).0.log
  {
    BatchKeeps(c, s, asked, oracles, order);
    var results := InOrder(c, s, asked, oracles, order).1;
    var i := FlatMember(results, |asked|, row);
    assert (c.norm(asked[i]), results[i].rows) in InOrder(c, s, asked, oracles, order).0.log;
  }

  lemma {:induction false} FlatMember(results: map<nat, Outcome>, n: nat, row: Row) returns (i: nat)
    requires row in Flat(results, n)
    ensures i < n && i in results && results[i].Returned? && row in results[i].rows
  {
    if row in Flat(results, n - 1) {
      i := FlatMember(results, n - 1, row);
    } else {
      i := n - 1;
    }
  }

  // ------------------------------------------------------------------ batches whose searches overlap

  /** A search of a batch between two of its steps: about to read the hot tier, about to read Postgres, about to ask the
      providers, about to write either tier, or over. */
  datatype Phase = ReadsHot | ReadsCold | Asks | WritesHot(rows: seq<Row>) | WritesCold(rows: seq<Row>)
                 | Over(outcome: Outcome)

  datatype Batch = Batch(tiers: Cache.Tiers<string, seq<Row>>, phases: seq<Phase>)

  /** A step of the i-th search, with what its surroundings do; or whatever befalls the tiers meanwhile. */
  datatype Move = Go(i: nat, oracle: Oracle) | Meanwhile(op: Cache.Op<string, seq<Row>>)

  function Gone(c: Config, tiers: Cache.Tiers<string, seq<Row>>, k: string, phase: Phase, o: Oracle)
    : (Cache.Tiers<string, seq<Row>>, Phase)
  {
    match phase
    case ReadsHot =>
      (match Cache.Answer(tiers, k, c.hasHot && o.hotUp, false)
       case Some(rows) => (tiers, Over(Returned(rows)))
       case None => (tiers, ReadsCold))
    case ReadsCold =>
      (match Cache.Answer(tiers, k, false, o.coldUp)
       case Some(rows) => (tiers, Over(Returned(rows)))
       case None => (tiers, Asks))
    case Asks =>
      var outcome := Provided(c, o);
      if outcome.Crashed? || outcome.rows == [] then (tiers, Over(outcome)) else (tiers, WritesHot(outcome.rows))
    case WritesHot(rows) => (Cache.Step(tiers, Cache.Set(k, rows, c.hasHot && o.hotOk, false)), WritesCold(rows))
    case WritesCold(rows) => (Cache.Step(tiers, Cache.Set(k, rows, false, o.coldOk)), Over(Returned(rows)))
    case Over(_) => (tiers, phase)
  }

  function Moved(c: Config, asked: seq<string>, b: Batch, m: Move): Batch
    requires |b.phases| == |asked|
  {
    match m
    case Meanwhile(op) => if op.Set? then b else b.(tiers := Cache.Step(b.tiers, op))
    case Go(i, o) =>
      if i >= |asked| then b
      else
        var (tiers, phase) := Gone(c, b.tiers, c.norm(asked[i]), b.phases[i], o);
        Batch(tiers, b.phases[i := phase])
  }

  function Begun(s: State, asked: seq<string>): Batch {
    Batch(s.tiers, seq(|asked|, _ => ReadsHot))
  }

  /** The batch after some moves, in whatever order. */
  function Overlapped(c: Config, s: State, asked: seq<string>, moves: seq<Move>): (b: Batch)
    ensures |b.phases| == |asked|
  {
    if moves == [] then Begun(s, asked)
    else Moved(c, asked, Overlapped(c, s, asked, moves[..|moves| - 1]), moves[|moves| - 1])
  }

  predicate AllOver(b: Batch) {
    forall i :: 0 <= i < |b.phases| ==> b.phases[i].Over?
  }

  function Outcomes(b: Batch): map<nat, Outcome> {
    map i: nat | i < |b.phases| && b.phases[i].Over? :: b.phases[i].outcome
  }

  /** What is said about keys: whether a provider, now or earlier, gave this outcome for this key. */
  type Sayings = (string, Outcome) -> bool

  predicate Backs(said: Sayings, k: string, phase: Phase) {
    match phase
    case WritesHot(rows) => rows != [] && said(k, Returned(rows))
    case WritesCold(rows) => rows != [] && said(k, Returned(rows))
    case Over(outcome) => said(k, outcome)
    case _ => true
  }

  /** Everything cached is rows, at least one, that were said about their key. */
  ghost predicate TiersBacked(said: Sayings, tiers: Cache.Tiers<string, seq<Row>>) {
    && (forall k :: k in tiers.hot ==> tiers.hot[k] != [] && said(k, Returned(tiers.hot[k])))
    && (forall k :: k in tiers.cold ==> tiers.cold[k].value != [] && said(k, Returned(tiers.cold[k].value)))
  }

  ghost predicate Backed(c: Config, said: Sayings, asked: seq<string>, b: Batch)
    requires |b.phases| == |asked|
  {
    && TiersBacked(said, b.tiers)
    && (forall i :: 0 <= i < |asked| ==> Backs(said, c.norm(asked[i]), b.phases[i]))
  }

  /** The providers say it whenever a search of the batch asks them. */
  ghost predicate SaidWhenAsked(c: Config, said: Sayings, asked: seq<string>, moves: seq<Move>) {
    forall m :: 0 <= m < |moves| && moves[m].Go? && moves[m].i < |asked| ==>
      said(c.norm(asked[moves[m].i]), Provided(c, moves[m].oracle))
  }

  lemma GoneIsBacked(c: Config, said: Sayings, tiers: Cache.Tiers<string, seq<Row>>, k: string, phase: Phase, o: Oracle)
    requires TiersBacked(said, tiers) && Backs(said, k, phase) && said(k, Provided(c, o))
    ensures TiersBacked(said, Gone(c, tiers, k, phase, o).0) && Backs(said, k, Gone(c, tiers, k, phase, o).1)
  {
  }

  lemma {:induction false} StaysBacked(c: Config, said: Sayings, s: State, asked: seq<string>, moves: seq<Move>)
    requires TiersBacked(said, s.tiers) && SaidWhenAsked(c, said, asked, moves)
    ensures Backed(c, said, asked, Overlapped(c, s, asked, moves))
  {
    if moves != [] {
      var n := |moves| - 1;
      assert forall m :: 0 <= m < n ==> moves[..n][m] == moves[m];
      StaysBacked(c, said, s, asked, moves[..n]);
      var b, m := Overlapped(c, s, asked, moves[..n]), moves[n];
      if m.Go? && m.i < |asked| {
        GoneIsBacked(c, said, b.tiers, c.norm(asked[m.i]), b.phases[m.i], m.oracle);
      }
    }
  }

  /** A provider gave `rows` for the key `k`: earlier, or when a search of this batch asked. */
  ghost predicate WasGiven(c: Config, s: State, asked: seq<string>, moves: seq<Move>, k: string, rows: seq<Row>) {
    (k, rows) in s.log || exists m :: 0 <= m < |moves| && GivenAt(c, asked, moves[m], k, Returned(rows))
  }

  predicate GivenAt(c: Config, asked: seq<string>, m: Move, k: string, outcome: Outcome) {
    m.Go? && m.i < |asked| && c.norm(asked[m.i]) == k && Provided(c, m.oracle) == outcome
  }

  /** However the searches of a batch overlap, every row that one of them returns comes from a provider, which gave it for
      the same key, in this batch or before. */
  lemma OverlappedRowsAreGiven(c: Config, s: State, asked: seq<string>, moves: seq<Move>, i: nat)
    requires Sourced(s) && i < |asked|
    requires var phase := Overlapped(c, s, asked, moves).phases[i];
      phase.Over? && phase.outcome.Returned? && phase.outcome.rows != []
    ensures WasGiven(c, s, asked, moves, c.norm(asked[i]), Overlapped(c, s, asked, moves).phases[i].outcome.rows)
  {
    var said: Sayings := (k: string, outcome: Outcome) =>
      outcome.Crashed? || outcome.rows == [] || (k, outcome.rows) in s.log ||
      exists m :: 0 <= m < |moves| && GivenAt(c, asked, moves[m], k, outcome);
    forall m | 0 <= m < |moves| && moves[m].Go? && moves[m].i < |asked|
      ensures said(c.norm(asked[moves[m].i]), Provided(c, moves[m].oracle))
    {
      assert GivenAt(c, asked, moves[m], c.norm(asked[moves[m].i]), Provided(c, moves[m].oracle));
    }
    StaysBacked(c, said, s, asked, moves);
    assert Backs(said, c.norm(asked[i]), Overlapped(c, s, asked, moves).phases[i]);
  }

  // Where providers answer by key, no overlap shows.

  type Providers = string -> Outcome

  function ByKey(p: Providers): Sayings {
    (k: string, outcome: Outcome) => outcome == p(k)
  }

  /** The searches of a batch one after the other, in any order, give what the providers say. */
  lemma {:induction false} SequentialSays(c: Config, p: Providers, s: State, asked: seq<string>, oracles: seq<Oracle>,
                                          order: seq<nat>)
    requires |oracles| == |asked| && forall i :: 0 <= i < |order| ==> order[i] < |asked|
    requires TiersBacked(ByKey(p), s.tiers)
    requires forall i :: 0 <= i < |asked| ==> Provided(c, oracles[i]) == p(c.norm(asked[i]))
    ensures var (s', results) := InOrder(c, s, asked, oracles, order);
      && TiersBacked(ByKey(p), s'.tiers)
      && (forall i :: i in results <==> i in order)
      && (forall i :: i in results ==> results[i] == p(c.norm(asked[i])))
  {
    if order != [] {
      var n := |order| - 1;
      assert order == order[..n] + [order[n]];
      SequentialSays(c, p, s, asked, oracles, order[..n]);
      var s1 := InOrder(c, s, asked, oracles, order[..n]).0;
      SearchSays(c, p, s1, asked[order[n]], oracles[order[n]]);
    }
  }

  lemma SearchSays(c: Config, p: Providers, s: State, query: string, o: Oracle)
    requires TiersBacked(ByKey(p), s.tiers) && Provided(c, o) == p(c.norm(query))
    ensures TiersBacked(ByKey(p), Searched(c, s, query, o).0.tiers)
    ensures Searched(c, s, query, o).1 == p(c.norm(query))
  {
  }

  lemma {:induction false} SameFlat(a: map<nat, Outcome>, b: map<nat, Outcome>, n: nat)
    requires forall i: nat :: i < n ==> i in a && i in b && a[i] == b[i]
    ensures Flat(a, n) == Flat(b, n)
  {
    if n > 0 {
      SameFlat(a, b, n - 1);
    }
  }

  /** A batch does what searching for one query after the other does: as long as the providers answer by key and the cache
      holds what they say, any overlap of its searches ends with the rows that the same searches give in sequence, in the
      order of the queries, whatever tier fails, loses entries or ages meanwhile. */
  lemma {:induction false} OverlapIsInvisible(c: Config, p: Providers, s: State, asked: seq<string>, oracles: seq<Oracle>,
                                            order: seq<nat>, moves: seq<Move>)
    requires |oracles| == |asked| && IsOrder(order, |asked|)
    requires TiersBacked(ByKey(p), s.tiers)
    requires forall i :: 0 <= i < |asked| ==> Provided(c, oracles[i]) == p(c.norm(asked[i]))
    requires SaidWhenAsked(c, ByKey(p), asked, moves) && AllOver(Overlapped(c, s, asked, moves))
    ensures Flat(Outcomes(Overlapped(c, s, asked, moves)), |asked|)
         == Flat(InOrder(c, s, asked, oracles, order).1, |asked|)
  {
    StaysBacked(c, ByKey(p), s, asked, moves);
    SequentialSays(c, p, s, asked, oracles, order);
    SameFlat(Outcomes(Overlapped(c, s, asked, moves)), InOrder(c, s, asked, oracles, order).1, |asked|);
  }

  // ------------------------------------------------------------------ what a batch asks and returns

  function NonBlank(): string -> bool {
    (q: string) => Strip(q) != ""
  }

  /** The queries asked are those that are not blank, in order. */
  lemma {:induction false} AskedAreNonBlank(queries: seq<string>)
    ensures Asked(queries) == Filter(queries, NonBlank())
  {
    if queries != [] {
      AskedAreNonBlank(queries[..|queries| - 1]);
    }
  }

  function RowsOf(results: map<nat, Outcome>, i: nat): seq<Row> {
    if i in results && results[i].Returned? then results[i].rows else []
  }

  /** The rows of each query stand together, right behind those of the queries before it. */
  lemma {:induction false} FlatInOrder(results: map<nat, Outcome>, i: nat, n: nat)
    requires i < n
    ensures |Flat(results, i)| + |RowsOf(results, i)| <= |Flat(results, n)|
    ensures Flat(results, n)[|Flat(results, i)|..|Flat(results, i)| + |RowsOf(results, i)|] == RowsOf(results, i)
  {
    if i < n - 1 {
      FlatInOrder(results, i, n - 1);
      assert Flat(results, n - 1) <= Flat(results, n);
    }
  }

  /** Nothing else is returned. */
  lemma {:induction false} FlatIsAll(results: map<nat, Outcome>, n: nat)
    ensures |Flat(results, n)| == if n == 0 then 0 else |Flat(results, n - 1)| + |RowsOf(results, n - 1)|
  {
  }

  /** In mock mode the canned rows are returned and no provider is asked. */
  lemma MockIsCanned(c: Config, s: State, query: string, o: Oracle)
    requires c.mock
    ensures Searched(c, s, query, o).0.hits == s.hits ==> Searched(c, s, query, o).1 == Returned(o.mock)
  {
  }
}
