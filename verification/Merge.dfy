/** The evidence graph (app/core/merge.py): three branches of findings become an index of cited rows, a rollup for each
    rival and a list of signals, all of which must be views of the same rows. */
module Merge {
  import opened Wrappers

  // ------------------------------------------------------------------ inputs

  datatype NewsItem = NewsItem(event: string, impact: string, url: string, date: string)

  datatype News = News(competitor: string, items: seq<NewsItem>, lowSignal: bool)

  datatype Product = Product(competitor: string, tiers: seq<string>, features: seq<string>, positioning: string,
                             advantages: seq<string>, sources: seq<string>, lowSignal: bool)

  datatype Sentiment = Positive | Neutral | Negative

  datatype Review = Review(competitor: string, complaints: seq<string>, gaps: seq<string>, sentiment: Sentiment,
                           sources: seq<string>, lowSignal: bool)

  /** An item of the state after `_as`: an instance of its model, or an exception. */
  datatype Parsed<T> = Good(value: T) | Bad

  datatype Inputs = Inputs(news: seq<Parsed<News>>, products: seq<Parsed<Product>>, reviews: seq<Parsed<Review>>)

  /** What the node takes from outside: the fresh ids in the order they are drawn, whether the run id is text (otherwise
      no row and no signal validates), the slug of a name, and the host of a URL or its fallback. */
  datatype Env = Env(ids: nat -> string, textRunId: bool, slug: string -> string, host: (string, string) -> string)

  // ------------------------------------------------------------------ the graph

  datatype Agent = FromNews | FromProduct | FromReview

  datatype Row = Row(agent: Agent, competitor: string, claimRef: string, url: string, source: string, date: string,
                     snippet: string)

  datatype Payload = Launch(event: string, impact: string)
                   | Pricing(tiers: seq<string>, positioning: string)
                   | Complaint(complaints: seq<string>, sentiment: Sentiment)

  datatype Signal = Signal(agent: Agent, competitor: string, payload: Payload, ids: seq<string>)

  datatype Brief = Brief(event: string, impact: string, url: string)

  datatype Content = Content(tiers: seq<string>, features: seq<string>, advantages: seq<string>, complaints: seq<string>,
                             gaps: seq<string>, sentiment: Sentiment, news: seq<Brief>)

  datatype Rollup = Rollup(content: Content, ids: seq<string>)

  const EMPTY := Rollup(Content([], [], [], [], [], Neutral, []), [])

  datatype Finding = Unparseable(agent: Agent) | LowSignal(agent: Agent, competitor: string)
                   | DroppedEvidence(agent: Agent, competitor: string) | DroppedSignal(agent: Agent, competitor: string)

  /** The index is an insertion-ordered dict; `next` counts the ids drawn so far. */
  datatype Graph = Graph(signals: seq<Signal>, index: seq<(string, Row)>, rollups: map<string, Rollup>,
                         findings: seq<Finding>, next: nat)

  const NOTHING := Graph([], [], map[], [], 0)

  /** `index[id] = row`. */
  function Put(index: seq<(string, Row)>, id: string, row: Row): seq<(string, Row)> {
    if index == [] then [(id, row)]
    else if index[0].0 == id then [(id, row)] + index[1..]
    else [index[0]] + Put(index[1..], id, row)
  }

  function At(g: Graph, c: string): Rollup {
    if c in g.rollups then g.rollups[c] else EMPTY
  }

  const SNIPPET_CAP := 280

  function Cut(s: string): (r: string)
    ensures r <= s && |r| == if |s| <= SNIPPET_CAP then |s| else SNIPPET_CAP
  {
    if |s| <= SNIPPET_CAP then s else s[..SNIPPET_CAP]
  }

  /** `"; ".join(xs[:2])`. */
  function JoinTwo(xs: seq<string>): string {
    if xs == [] then "" else if |xs| == 1 then xs[0] else xs[0] + "; " + xs[1]
  }

  // ------------------------------------------------------------------ the node, step by step

  /** `add_evidence`: the graph after it. */
  function AddRow(env: Env, g: Graph, row: Row): Graph {
    if !env.textRunId
    then g.(next := g.next + 1, findings := g.findings + [DroppedEvidence(row.agent, row.competitor)])
    else
      var id := env.ids(g.next);
      var rollup := At(g, row.competitor);
      g.(next := g.next + 1, index := Put(g.index, id, row),
         rollups := g.rollups[row.competitor := rollup.(ids := rollup.ids + [id])])
  }

  /** The id that `add_evidence` hands back. */
  function RowId(env: Env, g: Graph): seq<string> {
    if env.textRunId then [env.ids(g.next)] else []
  }

  function AddRows(env: Env, g: Graph, rows: seq<Row>): Graph {
    if rows == [] then g else AddRow(env, AddRows(env, g, rows[..|rows| - 1]), rows[|rows| - 1])
  }

  function RowIds(env: Env, g: Graph, rows: seq<Row>): seq<string> {
    if rows == [] then []
    else RowIds(env, g, rows[..|rows| - 1]) + RowId(env, AddRows(env, g, rows[..|rows| - 1]))
  }

  /** `add_signal`. */
  function AddSignal(env: Env, g: Graph, s: Signal): Graph {
    if env.textRunId then g.(signals := g.signals + [s])
    else g.(findings := g.findings + [DroppedSignal(s.agent, s.competitor)])
  }

  datatype Change = NewsChange(brief: Brief)
                  | ProductChange(tiers: seq<string>, features: seq<string>, advantages: seq<string>)
                  | ReviewChange(complaints: seq<string>, gaps: seq<string>, sentiment: Sentiment)

  function Changed(c: Content, change: Change): Content {
    match change
    case NewsChange(brief) => c.(news := c.news + [brief])
    case ProductChange(tiers, features, advantages) =>
      c.(tiers := c.tiers + tiers, features := c.features + features, advantages := c.advantages + advantages)
    case ReviewChange(complaints, gaps, sentiment) =>
      c.(complaints := c.complaints + complaints, gaps := c.gaps + gaps, sentiment := sentiment)
  }

  /** A change of a rival's rollup, which is created when there is none. */
  function Change1(g: Graph, competitor: string, change: Change): Graph {
    var rollup := At(g, competitor);
    g.(rollups := g.rollups[competitor := rollup.(content := Changed(rollup.content, change))])
  }

  /** One finding of a branch: its change to the rollup, its rows, and the signal that cites them. */
  datatype Unit = Unit(agent: Agent, competitor: string, change: Change, rows: seq<Row>, payload: Payload)

  datatype Event = Noted(finding: Finding) | Found(one: Unit)

  function Step(env: Env, g: Graph, e: Event): Graph {
    match e
    case Noted(finding) => g.(findings := g.findings + [finding])
    case Found(u) =>
      var g' := Change1(g, u.competitor, u.change);
      AddSignal(env, AddRows(env, g', u.rows), Signal(u.agent, u.competitor, u.payload, RowIds(env, g', u.rows)))
  }

  function Run(env: Env, g: Graph, events: seq<Event>): Graph {
    if events == [] then g else Step(env, Run(env, g, events[..|events| - 1]), events[|events| - 1])
  }

  // ------------------------------------------------------------------ what the inputs say

  function NewsUnit(env: Env, c: string, it: NewsItem): Unit {
    Unit(FromNews, c, NewsChange(Brief(it.event, it.impact, it.url)),
         [Row(FromNews, c, "news:" + env.slug(c), it.url, env.host(it.url, "news"), it.date,
              Cut(it.event + " \U{2014} " + it.impact))],
         Launch(it.event, it.impact))
  }

  function ProductRow(env: Env, p: Product, url: string): Row {
    var joined := JoinTwo(p.tiers);
    Row(FromProduct, p.competitor, "pricing:" + env.slug(p.competitor), url, env.host(url, "product"), "",
        Cut(if joined != "" then joined else p.positioning))
  }

  function ProductUnit(env: Env, p: Product): Unit {
    Unit(FromProduct, p.competitor, ProductChange(p.tiers, p.features, p.advantages),
         seq(|p.sources|, i requires 0 <= i < |p.sources| => ProductRow(env, p, p.sources[i])),
         Pricing(p.tiers, p.positioning))
  }

  function ReviewRow(env: Env, r: Review, url: string): Row {
    Row(FromReview, r.competitor, "review:" + env.slug(r.competitor), url, env.host(url, "review"), "",
        Cut(JoinTwo(r.complaints)))
  }

  function ReviewUnit(env: Env, r: Review): Unit {
    Unit(FromReview, r.competitor, ReviewChange(r.complaints, r.gaps, r.sentiment),
         seq(|r.sources|, i requires 0 <= i < |r.sources| => ReviewRow(env, r, r.sources[i])),
         Complaint(r.complaints, r.sentiment))
  }

  function NewsItemEvents(env: Env, c: string, items: seq<NewsItem>): seq<Event> {
    seq(|items|, i requires 0 <= i < |items| => Found(NewsUnit(env, c, items[i])))
  }

  function NewsEvents1(env: Env, raw: Parsed<News>): seq<Event> {
    match raw
    case Bad => [Noted(Unparseable(FromNews))]
    case Good(ns) =>
      (if ns.lowSignal || ns.items == [] then [Noted(LowSignal(FromNews, ns.competitor))] else []) +
      NewsItemEvents(env, ns.competitor, ns.items)
  }

  function ProductEvents1(env: Env, raw: Parsed<Product>): seq<Event> {
    match raw
    case Bad => [Noted(Unparseable(FromProduct))]
    case Good(p) => (if p.lowSignal then [Noted(LowSignal(FromProduct, p.competitor))] else []) + [Found(ProductUnit(env, p))]
  }

  function ReviewEvents1(env: Env, raw: Parsed<Review>): seq<Event> {
    match raw
    case Bad => [Noted(Unparseable(FromReview))]
    case Good(r) => (if r.lowSignal then [Noted(LowSignal(FromReview, r.competitor))] else []) + [Found(ReviewUnit(env, r))]
  }

  function Events<T>(xs: seq<T>, f: T -> seq<Event>): seq<Event> {
    if xs == [] then [] else Events(xs[..|xs| - 1], f) + f(xs[|xs| - 1])
  }

  function NewsEvents(env: Env): Parsed<News> -> seq<Event> { raw => NewsEvents1(env, raw) }
  function ProductEvents(env: Env): Parsed<Product> -> seq<Event> { raw => ProductEvents1(env, raw) }
  function ReviewEvents(env: Env): Parsed<Review> -> seq<Event> { raw => ReviewEvents1(env, raw) }

  function Script(env: Env, x: Inputs): seq<Event> {
    Events(x.news, NewsEvents(env)) + Events(x.products, ProductEvents(env)) + Events(x.reviews, ReviewEvents(env))
  }

  /** The graph that the node builds. */
  function Merged(env: Env, x: Inputs): Graph {
    Run(env, NOTHING, Script(env, x))
  }

  const INDEX_KEY := "__evidence_index__"

  datatype Entry = OfRival(rollup: Rollup) | TheIndex(index: seq<(string, Row)>)

  /** `per_competitor` as it is handed on: the rollups, and the index under its reserved key. */
  function PerCompetitor(g: Graph): map<string, Entry> {
    (map c | c in g.rollups :: OfRival(g.rollups[c]))[INDEX_KEY := TheIndex(g.index)]
  }

  lemma {:induction false} RunAppend(env: Env, g: Graph, a: seq<Event>, b: seq<Event>)
    ensures Run(env, g, a + b) == Run(env, Run(env, g, a), b)
  {
    if b == [] {
      assert a + b == a;
    } else {
      assert (a + b)[..|a + b| - 1] == a + b[..|b| - 1];
      RunAppend(env, g, a, b[..|b| - 1]);
    }
  }

  // ------------------------------------------------------------------ the node as the source writes it

  class MergeNode {
    const env: Env
    var signals: seq<Signal>
    var index: seq<(string, Row)>
    var rollups: map<string, Rollup>
    var findings: seq<Finding>
    var next: nat

    constructor (env: Env)
      ensures this.env == env && Value() == NOTHING
    {
      this.env := env;
      signals, index, rollups, findings, next := [], [], map[], [], 0;
    }

    function Value(): Graph
      reads this
    {
      Graph(signals, index, rollups, findings, next)
    }

    /** `bucket`. */
    method Bucket(c: string) returns (rollup: Rollup)
      modifies this`rollups
      ensures rollup == At(old(Value()), c)
      ensures rollups == old(rollups)[c := rollup]
    {
      if c !in rollups {
        rollups := rollups[c := EMPTY];
      }
      rollup := rollups[c];
    }

    method AddEvidence(row: Row) returns (id: Option<string>)
      modifies this
      ensures Value() == AddRow(env, old(Value()), row)
      ensures RowId(env, old(Value())) == if id.Some? then [id.value] else []
    {
      var eid := env.ids(next);
      next := next + 1;
      if !env.textRunId {
        findings := findings + [DroppedEvidence(row.agent, row.competitor)];
        return None;
      }
      index := Put(index, eid, row);
      var rollup := Bucket(row.competitor);
      rollups := rollups[row.competitor := rollup.(ids := rollup.ids + [eid])];
      return Some(eid);
    }

    method Raise(s: Signal)
      modifies this
      ensures Value() == AddSignal(env, old(Value()), s)
    {
      if !env.textRunId {
        findings := findings + [DroppedSignal(s.agent, s.competitor)];
        return;
      }
      signals := signals + [s];
    }

    /** The rows of one product or review item, and the ids that came back. */
    method AddAll(rows: seq<Row>) returns (ids: seq<string>)
      modifies this
      ensures Value() == AddRows(env, old(Value()), rows)
      ensures ids == RowIds(env, old(Value()), rows)
    {
      ids := [];
      for i := 0 to |rows|
        invariant Value() == AddRows(env, old(Value()), rows[..i])
        invariant ids == RowIds(env, old(Value()), rows[..i])
      {
        assert rows[..i + 1][..i] == rows[..i];
        var id := AddEvidence(rows[i]);
        if id.Some? {
          ids := ids + [id.value];
        }
      }
      assert rows[..|rows|] == rows;
    }

    /** The updates of a rollup, which is created when there is none. */
    method Extend(c: string, change: Change)
      modifies this`rollups
      ensures Value() == Change1(old(Value()), c, change)
    {
      var rollup := Bucket(c);
      rollups := rollups[c := rollup.(content := Changed(rollup.content, change))];
    }

    method Note(finding: Finding)
      modifies this`findings
      ensures Value() == Step(env, old(Value()), Noted(finding))
    {
      findings := findings + [finding];
    }

    method MergeNewsItem(c: string, it: NewsItem)
      modifies this
      ensures Value() == Step(env, old(Value()), Found(NewsUnit(env, c, it)))
    {
      var u := NewsUnit(env, c, it);
      var row := u.rows[0];
      NewsStep(env, Value(), u, row);
      var id := AddEvidence(row);
      Extend(c, u.change);
      Raise(Signal(FromNews, c, u.payload, if id.Some? then [id.value] else []));
    }

    method MergeNewsItems(c: string, items: seq<NewsItem>)
      modifies this
      ensures Value() == Run(env, old(Value()), NewsItemEvents(env, c, items))
    {
      for j := 0 to |items|
        invariant Value() == Run(env, old(Value()), NewsItemEvents(env, c, items[..j]))
      {
        assert NewsItemEvents(env, c, items[..j + 1])
            == NewsItemEvents(env, c, items[..j]) + [Found(NewsUnit(env, c, items[j]))];
        OneStep(env, Value(), Found(NewsUnit(env, c, items[j])));
        RunAppend(env, old(Value()), NewsItemEvents(env, c, items[..j]), [Found(NewsUnit(env, c, items[j]))]);
        MergeNewsItem(c, items[j]);
      }
      assert items[..|items|] == items;
    }

    method MergeOneNews(raw: Parsed<News>)
      modifies this
      ensures Value() == Run(env, old(Value()), NewsEvents1(env, raw))
    {
      if raw.Bad? {
        OneStep(env, Value(), Noted(Unparseable(FromNews)));
        Note(Unparseable(FromNews));
        return;
      }
      var ns := raw.value;
      ghost var events := NewsItemEvents(env, ns.competitor, ns.items);
      if ns.lowSignal || ns.items == [] {
        var low := LowSignal(FromNews, ns.competitor);
        OneStep(env, Value(), Noted(low));
        RunAppend(env, Value(), [Noted(low)], events);
        Note(low);
      } else {
        assert [] + events == events;
      }
      MergeNewsItems(ns.competitor, ns.items);
    }

    method MergeNews(raws: seq<Parsed<News>>)
      modifies this
      ensures Value() == Run(env, old(Value()), Events(raws, NewsEvents(env)))
    {
      for i := 0 to |raws|
        invariant Value() == Run(env, old(Value()), Events(raws[..i], NewsEvents(env)))
      {
        MoreEvents(raws, i, NewsEvents(env));
        RunAppend(env, old(Value()), Events(raws[..i], NewsEvents(env)), NewsEvents1(env, raws[i]));
        MergeOneNews(raws[i]);
      }
      assert raws[..|raws|] == raws;
    }

    method MergeOneProduct(raw: Parsed<Product>)
      modifies this
      ensures Value() == Run(env, old(Value()), ProductEvents1(env, raw))
    {
      if raw.Bad? {
        OneStep(env, Value(), Noted(Unparseable(FromProduct)));
        Note(Unparseable(FromProduct));
        return;
      }
      var p := raw.value;
      var u := ProductUnit(env, p);
      NotedThenFound(env, Value(), p.lowSignal, LowSignal(FromProduct, p.competitor), u);
      if p.lowSignal {
        Note(LowSignal(FromProduct, p.competitor));
      }
      Extend(p.competitor, u.change);
      var ids := AddAll(u.rows);
      Raise(Signal(FromProduct, p.competitor, u.payload, ids));
    }

    method MergeProducts(raws: seq<Parsed<Product>>)
      modifies this
      ensures Value() == Run(env, old(Value()), Events(raws, ProductEvents(env)))
    {
      for i := 0 to |raws|
        invariant Value() == Run(env, old(Value()), Events(raws[..i], ProductEvents(env)))
      {
        MoreEvents(raws, i, ProductEvents(env));
        RunAppend(env, old(Value()), Events(raws[..i], ProductEvents(env)), ProductEvents1(env, raws[i]));
        MergeOneProduct(raws[i]);
      }
      assert raws[..|raws|] == raws;
    }

    method MergeOneReview(raw: Parsed<Review>)
      modifies this
      ensures Value() == Run(env, old(Value()), ReviewEvents1(env, raw))
    {
      if raw.Bad? {
        OneStep(env, Value(), Noted(Unparseable(FromReview)));
        Note(Unparseable(FromReview));
        return;
      }
      var r := raw.value;
      var u := ReviewUnit(env, r);
      NotedThenFound(env, Value(), r.lowSignal, LowSignal(FromReview, r.competitor), u);
      if r.lowSignal {
        Note(LowSignal(FromReview, r.competitor));
      }
      Extend(r.competitor, u.change);
      var ids := AddAll(u.rows);
      Raise(Signal(FromReview, r.competitor, u.payload, ids));
    }

    method MergeReviews(raws: seq<Parsed<Review>>)
      modifies this
      ensures Value() == Run(env, old(Value()), Events(raws, ReviewEvents(env)))
    {
      for i := 0 to |raws|
        invariant Value() == Run(env, old(Value()), Events(raws[..i], ReviewEvents(env)))
      {
        MoreEvents(raws, i, ReviewEvents(env));
        RunAppend(env, old(Value()), Events(raws[..i], ReviewEvents(env)), ReviewEvents1(env, raws[i]));
        MergeOneReview(raws[i]);
      }
      assert raws[..|raws|] == raws;
    }

    /** `merge_node`; the counts are the ones it emits. */
    method Merge(x: Inputs) returns (perCompetitor: map<string, Entry>, signalCount: nat, rowCount: nat, rivalCount: nat)
      requires Value() == NOTHING
      modifies this
      ensures Value() == Merged(env, x)
      ensures perCompetitor == PerCompetitor(Value())
      ensures signalCount == |signals| && rowCount == |index| && rivalCount == |rollups|
    {
      MergeNews(x.news);
      MergeProducts(x.products);
      MergeReviews(x.reviews);
      RunAppend(env, NOTHING, Events(x.news, NewsEvents(env)), Events(x.products, ProductEvents(env)));
      RunAppend(env, NOTHING, Events(x.news, NewsEvents(env)) + Events(x.products, ProductEvents(env)),
                Events(x.reviews, ReviewEvents(env)));
      signalCount, rowCount, rivalCount := |signals|, |index|, |rollups|;
      perCompetitor := (map c | c in rollups :: OfRival(rollups[c]))[INDEX_KEY := TheIndex(index)];
    }
  }

  lemma OneStep(env: Env, g: Graph, e: Event)
    ensures Run(env, g, [e]) == Step(env, g, e)
  {
    assert [e][..0] == [];
  }

  lemma OneRow(env: Env, g: Graph, row: Row)
    ensures AddRows(env, g, [row]) == AddRow(env, g, row) && RowIds(env, g, [row]) == RowId(env, g)
  {
    assert [row][..0] == [];
  }

  lemma NotedThenFound(env: Env, g: Graph, low: bool, finding: Finding, u: Unit)
    ensures Run(env, g, (if low then [Noted(finding)] else []) + [Found(u)])
         == Step(env, if low then g.(findings := g.findings + [finding]) else g, Found(u))
  {
    if low {
      RunAppend(env, g, [Noted(finding)], [Found(u)]);
      OneStep(env, g, Noted(finding));
      OneStep(env, Step(env, g, Noted(finding)), Found(u));
    } else {
      assert [] + [Found(u)] == [Found(u)];
      OneStep(env, g, Found(u));
    }
  }

  lemma MoreEvents<T>(xs: seq<T>, i: nat, f: T -> seq<Event>)
    requires i < |xs|
    ensures Events(xs[..i + 1], f) == Events(xs[..i], f) + f(xs[i])
  {
    assert xs[..i + 1][..i] == xs[..i];
  }

  /** A row and a change of the same rival's rollup may come in either order. */
  lemma RowCommutes(env: Env, g: Graph, row: Row, change: Change)
    ensures Change1(AddRow(env, g, row), row.competitor, change) == AddRow(env, Change1(g, row.competitor, change), row)
    ensures RowId(env, Change1(g, row.competitor, change)) == RowId(env, g)
  {
    var c := row.competitor;
    assert Change1(AddRow(env, g, row), c, change).rollups == AddRow(env, Change1(g, c, change), row).rollups;
  }

  /** A news item adds its row before it touches the rollup. */
  lemma NewsStep(env: Env, g: Graph, u: Unit, row: Row)
    requires u.rows == [row] && row.competitor == u.competitor
    ensures Step(env, g, Found(u)) == AddSignal(env, Change1(AddRow(env, g, row), u.competitor, u.change),
                                                Signal(u.agent, u.competitor, u.payload, RowId(env, g)))
  {
    RowCommutes(env, g, row, u.change);
    OneRow(env, Change1(g, u.competitor, u.change), row);
  }
}
