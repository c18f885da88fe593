/** What the evidence graph promises: index, rollups and signals are views of the same rows (app/core/merge.py). */
module MergeProofs {
  import opened Wrappers
  import opened Merge

  // ------------------------------------------------------------------ views of the rows

  ghost predicate Fresh(env: Env) {
    forall i: nat, j: nat :: i != j ==> env.ids(i) != env.ids(j)
  }

  /** The ids of one rival's rows, in the order of the index. */
  function IdsFor(index: seq<(string, Row)>, c: string): seq<string> {
    if index == [] then []
    else
      var last := index[|index| - 1];
      IdsFor(index[..|index| - 1], c) + (if last.1.competitor == c then [last.0] else [])
  }

  /** Who cites which id. */
  datatype Citation = Citation(id: string, agent: Agent, competitor: string)

  function IndexCitations(index: seq<(string, Row)>): seq<Citation> {
    seq(|index|, i requires 0 <= i < |index| => Citation(index[i].0, index[i].1.agent, index[i].1.competitor))
  }

  function SignalCitations(s: Signal): seq<Citation> {
    seq(|s.ids|, i requires 0 <= i < |s.ids| => Citation(s.ids[i], s.agent, s.competitor))
  }

  function Citations(signals: seq<Signal>): seq<Citation> {
    if signals == [] then []
    else Citations(signals[..|signals| - 1]) + SignalCitations(signals[|signals| - 1])
  }

  function UnitRows(e: Event): seq<Row> {
    if e.Found? then e.one.rows else []
  }

  function RowsIn(events: seq<Event>): seq<Row> {
    if events == [] then [] else RowsIn(events[..|events| - 1]) + UnitRows(events[|events| - 1])
  }

  /** The signals of a script, without the ids they cite. */
  function SignalsIn(events: seq<Event>): seq<(Agent, string, Payload)> {
    if events == [] then []
    else
      var e := events[|events| - 1];
      SignalsIn(events[..|events| - 1]) + (if e.Found? then [(e.one.agent, e.one.competitor, e.one.payload)] else [])
  }

  function Bare(signals: seq<Signal>): seq<(Agent, string, Payload)> {
    seq(|signals|, i requires 0 <= i < |signals| => (signals[i].agent, signals[i].competitor, signals[i].payload))
  }

  /** Rows under the ids in the order in which these are drawn. */
  function Numbered(env: Env, rows: seq<Row>): seq<(string, Row)> {
    seq(|rows|, i requires 0 <= i < |rows| => (env.ids(i), rows[i]))
  }

  // ------------------------------------------------------------------ the invariant of the node

  /** The index numbers `rows`, every rollup cites its own rows, and what the signals do not cite yet is `pending`. */
  ghost predicate Views(env: Env, g: Graph, rows: seq<Row>, pending: seq<Citation>) {
    && g.next == |rows|
    && g.index == Numbered(env, rows)
    && (forall c :: At(g, c).ids == IdsFor(g.index, c))
    && Citations(g.signals) + pending == IndexCitations(g.index)
  }

  lemma {:induction false} PutFresh(index: seq<(string, Row)>, id: string, row: Row)
    requires forall i :: 0 <= i < |index| ==> index[i].0 != id
    ensures Put(index, id, row) == index + [(id, row)]
  {
    if index != [] {
      PutFresh(index[1..], id, row);
    }
  }

  lemma IdsForSnoc(index: seq<(string, Row)>, id: string, row: Row, c: string)
    ensures IdsFor(index + [(id, row)], c) == IdsFor(index, c) + (if row.competitor == c then [id] else [])
  {
    assert (index + [(id, row)])[..|index|] == index;
  }

  lemma AddRowKeeps(env: Env, g: Graph, rows: seq<Row>, pending: seq<Citation>, row: Row)
    requires Fresh(env) && env.textRunId && Views(env, g, rows, pending)
    ensures Views(env, AddRow(env, g, row), rows + [row],
                  pending + [Citation(env.ids(g.next), row.agent, row.competitor)])
  {
    var id := env.ids(g.next);
    var g' := AddRow(env, g, row);
    PutFresh(g.index, id, row);
    assert Numbered(env, rows + [row]) == Numbered(env, rows) + [(id, row)];
    forall c ensures At(g', c).ids == IdsFor(g'.index, c) {
      IdsForSnoc(g.index, id, row, c);
      assert At(g, c).ids + [] == At(g, c).ids;
    }
    assert IndexCitations(g'.index) == IndexCitations(g.index) + [Citation(id, row.agent, row.competitor)];
  }

  function Pending(ids: seq<string>, agent: Agent, c: string): seq<Citation> {
    seq(|ids|, i requires 0 <= i < |ids| => Citation(ids[i], agent, c))
  }

  lemma PendingSnoc(ids: seq<string>, id: string, agent: Agent, c: string)
    ensures Pending(ids + [id], agent, c) == Pending(ids, agent, c) + [Citation(id, agent, c)]
  {
  }

  lemma {:induction false} AddRowsKeeps(env: Env, g: Graph, rows: seq<Row>, more: seq<Row>, agent: Agent, c: string)
    requires Fresh(env) && env.textRunId && Views(env, g, rows, [])
    requires forall i :: 0 <= i < |more| ==> more[i].agent == agent && more[i].competitor == c
    ensures Views(env, AddRows(env, g, more), rows + more, Pending(RowIds(env, g, more), agent, c))
    ensures AddRows(env, g, more).signals == g.signals
  {
    if more == [] {
      assert rows + [] == rows;
    } else {
      var n := |more| - 1;
      AddRowsKeeps(env, g, rows, more[..n], agent, c);
      var g' := AddRows(env, g, more[..n]);
      AddRowKeeps(env, g', rows + more[..n], Pending(RowIds(env, g, more[..n]), agent, c), more[n]);
      assert rows + more == rows + more[..n] + [more[n]];
      PendingSnoc(RowIds(env, g, more[..n]), env.ids(g'.next), agent, c);
    }
  }

  lemma CitationsSnoc(signals: seq<Signal>, s: Signal)
    ensures Citations(signals + [s]) == Citations(signals) + SignalCitations(s)
  {
    assert (signals + [s])[..|signals|] == signals;
  }

  lemma AddSignalKeeps(env: Env, g: Graph, rows: seq<Row>, s: Signal)
    requires env.textRunId && Views(env, g, rows, SignalCitations(s))
    ensures Views(env, AddSignal(env, g, s), rows, [])
  {
    CitationsSnoc(g.signals, s);
    assert forall c :: At(AddSignal(env, g, s), c) == At(g, c);
    assert Citations(g.signals + [s]) + [] == Citations(g.signals + [s]);
  }

  lemma ChangeKeeps(env: Env, g: Graph, rows: seq<Row>, c: string, change: Change)
    requires Views(env, g, rows, [])
    ensures Views(env, Change1(g, c, change), rows, [])
  {
    assert forall c' :: At(Change1(g, c, change), c').ids == At(g, c').ids;
  }

  /** The rows of a unit are its own. */
  predicate OwnRows(e: Event) {
    e.Found? ==> forall i :: 0 <= i < |e.one.rows| ==>
      e.one.rows[i].agent == e.one.agent && e.one.rows[i].competitor == e.one.competitor
  }

  lemma StepKeeps(env: Env, g: Graph, rows: seq<Row>, e: Event)
    requires Fresh(env) && env.textRunId && Views(env, g, rows, []) && OwnRows(e)
    ensures Views(env, Step(env, g, e), rows + UnitRows(e), [])
    ensures Bare(Step(env, g, e).signals)
         == Bare(g.signals) + (if e.Found? then [(e.one.agent, e.one.competitor, e.one.payload)] else [])
  {
    match e
    case Noted(_) =>
      assert rows + [] == rows;
      assert forall c :: At(Step(env, g, e), c) == At(g, c);
    case Found(u) =>
      var g1 := Change1(g, u.competitor, u.change);
      ChangeKeeps(env, g, rows, u.competitor, u.change);
      AddRowsKeeps(env, g1, rows, u.rows, u.agent, u.competitor);
      var s := Signal(u.agent, u.competitor, u.payload, RowIds(env, g1, u.rows));
      assert SignalCitations(s) == Pending(s.ids, u.agent, u.competitor);
      AddSignalKeeps(env, AddRows(env, g1, u.rows), rows + u.rows, s);
  }

  lemma {:induction false} RunKeeps(env: Env, events: seq<Event>)
    requires Fresh(env) && env.textRunId
    requires forall i :: 0 <= i < |events| ==> OwnRows(events[i])
    ensures Views(env, Run(env, NOTHING, events), RowsIn(events), [])
    ensures Bare(Run(env, NOTHING, events).signals) == SignalsIn(events)
  {
    if events != [] {
      var n := |events| - 1;
      RunKeeps(env, events[..n]);
      StepKeeps(env, Run(env, NOTHING, events[..n]), RowsIn(events[..n]), events[n]);
    }
  }

  lemma {:induction false} EventsOwnRows<T>(xs: seq<T>, f: T -> seq<Event>)
    requires forall x, i :: x in xs && 0 <= i < |f(x)| ==> OwnRows(f(x)[i])
    ensures forall i :: 0 <= i < |Events(xs, f)| ==> OwnRows(Events(xs, f)[i])
  {
    if xs != [] {
      EventsOwnRows(xs[..|xs| - 1], f);
    }
  }

  lemma ScriptOwnRows(env: Env, x: Inputs)
    ensures forall i :: 0 <= i < |Script(env, x)| ==> OwnRows(Script(env, x)[i])
  {
    EventsOwnRows(x.news, NewsEvents(env));
    EventsOwnRows(x.products, ProductEvents(env));
    EventsOwnRows(x.reviews, ReviewEvents(env));
  }

  /** The evidence graph is consistent: the index holds exactly the rows of the inputs, in order and under fresh ids;
      each rollup cites exactly the rows of its rival; and the signals, read in order, cite exactly the index, each id
      from the agent and for the rival of its row. */
  lemma EvidenceIsConsistent(env: Env, x: Inputs)
    requires Fresh(env) && env.textRunId
    ensures var g := Merged(env, x);
      && g.index == Numbered(env, RowsIn(Script(env, x)))
      && (forall c :: At(g, c).ids == IdsFor(g.index, c))
      && Citations(g.signals) == IndexCitations(g.index)
      && Bare(g.signals) == SignalsIn(Script(env, x))
  {
    ScriptOwnRows(env, x);
    RunKeeps(env, Script(env, x));
  }

  // ------------------------------------------------------------------ every id exactly once

  lemma {:induction false} IdsForMembers(index: seq<(string, Row)>, c: string)
    ensures forall id :: id in IdsFor(index, c) ==> exists i :: 0 <= i < |index| && index[i].0 == id
  {
    if index != [] {
      IdsForMembers(index[..|index| - 1], c);
    }
  }

  lemma {:induction false} CountFor(index: seq<(string, Row)>, c: string, k: nat)
    requires forall i, j :: 0 <= i < j < |index| ==> index[i].0 != index[j].0
    requires k < |index|
    ensures multiset(IdsFor(index, c))[index[k].0] == if index[k].1.competitor == c then 1 else 0
  {
    var n := |index| - 1;
    IdsForMembers(index[..n], c);
    if k < n {
      CountFor(index[..n], c, k);
    } else {
      assert forall i :: 0 <= i < n ==> index[..n][i].0 != index[n].0;
      assert index[n].0 !in IdsFor(index[..n], c);
      assert index[n].0 !in multiset(IdsFor(index[..n], c));
    }
  }

  function CitedIds(signals: seq<Signal>): seq<string> {
    var all := Citations(signals);
    seq(|all|, i requires 0 <= i < |all| => all[i].id)
  }

  lemma {:induction false} CountOnce(ids: seq<string>, k: nat)
    requires Distinct(ids) && k < |ids|
    ensures multiset(ids)[ids[k]] == 1
  {
    var n := |ids| - 1;
    assert ids == ids[..n] + [ids[n]];
    if k < n {
      CountOnce(ids[..n], k);
    } else {
      assert ids[k] !in multiset(ids[..n]);
    }
  }

  /** Every id of the index occurs exactly once over all rollups, in the one of its own rival, and exactly once over
      all signals; and no other id occurs anywhere. */
  lemma EachIdOnce(env: Env, x: Inputs)
    requires Fresh(env) && env.textRunId
    ensures var g := Merged(env, x);
      && (forall k, c :: 0 <= k < |g.index| ==>
           multiset(At(g, c).ids)[g.index[k].0] == if g.index[k].1.competitor == c then 1 else 0)
      && (forall k :: 0 <= k < |g.index| ==> multiset(CitedIds(g.signals))[g.index[k].0] == 1)
      && (forall c, id :: id in At(g, c).ids || id in CitedIds(g.signals) ==>
           exists k :: 0 <= k < |g.index| && g.index[k].0 == id)
  {
    EvidenceIsConsistent(env, x);
    var g := Merged(env, x);
    forall k, c | 0 <= k < |g.index|
      ensures multiset(At(g, c).ids)[g.index[k].0] == if g.index[k].1.competitor == c then 1 else 0
    {
      CountFor(g.index, c, k);
    }
    var ids := CitedIds(g.signals);
    assert |ids| == |g.index| && forall k :: 0 <= k < |ids| ==> ids[k] == IndexCitations(g.index)[k].id == g.index[k].0;
    forall k | 0 <= k < |g.index| ensures multiset(ids)[g.index[k].0] == 1 {
      CountOnce(ids, k);
    }
    forall c ensures forall id :: id in At(g, c).ids ==> exists k :: 0 <= k < |g.index| && g.index[k].0 == id {
      IdsForMembers(g.index, c);
    }
  }

  // ------------------------------------------------------------------ what a rollup holds

  /** What the inputs say about one rival, field by field. */
  function BriefsOf(items: seq<NewsItem>): seq<Brief> {
    seq(|items|, i requires 0 <= i < |items| => Brief(items[i].event, items[i].impact, items[i].url))
  }

  function Briefs(raws: seq<Parsed<News>>, c: string): seq<Brief> {
    if raws == [] then []
    else
      var last := raws[|raws| - 1];
      Briefs(raws[..|raws| - 1], c) + (if last.Good? && last.value.competitor == c then BriefsOf(last.value.items) else [])
  }

  function Tiers(p: Product): seq<string> { p.tiers }
  function Features(p: Product): seq<string> { p.features }
  function Advantages(p: Product): seq<string> { p.advantages }
  function Complaints(r: Review): seq<string> { r.complaints }
  function Gaps(r: Review): seq<string> { r.gaps }

  function ProductField(raws: seq<Parsed<Product>>, c: string, f: Product -> seq<string>): seq<string> {
    if raws == [] then []
    else
      var last := raws[|raws| - 1];
      ProductField(raws[..|raws| - 1], c, f) + (if last.Good? && last.value.competitor == c then f(last.value) else [])
  }

  function ReviewField(raws: seq<Parsed<Review>>, c: string, f: Review -> seq<string>): seq<string> {
    if raws == [] then []
    else
      var last := raws[|raws| - 1];
      ReviewField(raws[..|raws| - 1], c, f) + (if last.Good? && last.value.competitor == c then f(last.value) else [])
  }

  /** The verdict of the last review of a rival. */
  function LastSentiment(raws: seq<Parsed<Review>>, c: string): Sentiment {
    if raws == [] then Neutral
    else
      var last := raws[|raws| - 1];
      if last.Good? && last.value.competitor == c then last.value.sentiment else LastSentiment(raws[..|raws| - 1], c)
  }

  function Told(x: Inputs, c: string): Content {
    Content(ProductField(x.products, c, Tiers), ProductField(x.products, c, Features),
            ProductField(x.products, c, Advantages), ReviewField(x.reviews, c, Complaints),
            ReviewField(x.reviews, c, Gaps), LastSentiment(x.reviews, c), Briefs(x.news, c))
  }

  lemma {:induction false} RowsLeaveContent(env: Env, g: Graph, rows: seq<Row>, c: string)
    ensures At(AddRows(env, g, rows), c).content == At(g, c).content
  {
    if rows != [] {
      RowsLeaveContent(env, g, rows[..|rows| - 1], c);
    }
  }

  /** What an event says about one rival. */
  function Heard(content: Content, e: Event, c: string): Content {
    if e.Found? && e.one.competitor == c then Changed(content, e.one.change) else content
  }

  function HeardAll(content: Content, events: seq<Event>, c: string): Content {
    if events == [] then content else Heard(HeardAll(content, events[..|events| - 1], c), events[|events| - 1], c)
  }

  /** A unit changes the content of its own rival's rollup and of no other. */
  lemma StepContent(env: Env, g: Graph, e: Event, c: string)
    ensures At(Step(env, g, e), c).content == Heard(At(g, c).content, e, c)
  {
    if e.Found? {
      RowsLeaveContent(env, Change1(g, e.one.competitor, e.one.change), e.one.rows, c);
    }
  }

  lemma {:induction false} RunContent(env: Env, events: seq<Event>, c: string)
    ensures At(Run(env, NOTHING, events), c).content == HeardAll(EMPTY.content, events, c)
  {
    if events != [] {
      var n := |events| - 1;
      RunContent(env, events[..n], c);
      StepContent(env, Run(env, NOTHING, events[..n]), events[n], c);
    }
  }

  lemma {:induction false} HeardAppend(content: Content, a: seq<Event>, b: seq<Event>, c: string)
    ensures HeardAll(content, a + b, c) == HeardAll(HeardAll(content, a, c), b, c)
  {
    if b == [] {
      assert a + b == a;
    } else {
      assert (a + b)[..|a + b| - 1] == a + b[..|b| - 1];
      HeardAppend(content, a, b[..|b| - 1], c);
    }
  }

  lemma {:induction false} ItemsHeard(env: Env, content: Content, who: string, items: seq<NewsItem>, c: string)
    ensures HeardAll(content, NewsItemEvents(env, who, items), c)
         == content.(news := content.news + if who == c then BriefsOf(items) else [])
  {
    var events := NewsItemEvents(env, who, items);
    if items == [] {
      assert content.news + [] == content.news;
    } else {
      var n := |items| - 1;
      ItemsHeard(env, content, who, items[..n], c);
      assert events[..n] == NewsItemEvents(env, who, items[..n]);
      assert BriefsOf(items) == BriefsOf(items[..n]) + [Brief(items[n].event, items[n].impact, items[n].url)];
    }
  }

  /** Findings say nothing about a rival. */
  lemma NotedHeard(content: Content, noted: seq<Event>, events: seq<Event>, c: string)
    requires |noted| <= 1 && (noted != [] ==> noted[0].Noted?)
    ensures HeardAll(content, noted + events, c) == HeardAll(content, events, c)
  {
    HeardAppend(content, noted, events, c);
    assert HeardAll(content, noted, c) == content by {
      if noted != [] {
        assert noted[..0] == [];
      }
    }
  }

  lemma NewsHeard1(env: Env, content: Content, raw: Parsed<News>, c: string)
    ensures HeardAll(content, NewsEvents1(env, raw), c)
         == content.(news := content.news + if raw.Good? && raw.value.competitor == c then BriefsOf(raw.value.items) else [])
  {
    match raw
    case Bad =>
      NotedHeard(content, [Noted(Unparseable(FromNews))], [], c);
      assert [Noted(Unparseable(FromNews))] + [] == [Noted(Unparseable(FromNews))];
      assert content.news + [] == content.news;
    case Good(ns) =>
      NotedHeard(content, if ns.lowSignal || ns.items == [] then [Noted(LowSignal(FromNews, ns.competitor))] else [],
                 NewsItemEvents(env, ns.competitor, ns.items), c);
      ItemsHeard(env, content, ns.competitor, ns.items, c);
  }

  lemma EventsHeard<T>(content: Content, raws: seq<T>, f: T -> seq<Event>, c: string)
    requires raws != []
    ensures var n := |raws| - 1;
      HeardAll(content, Events(raws, f), c) == HeardAll(HeardAll(content, Events(raws[..n], f), c), f(raws[n]), c)
  {
    HeardAppend(content, Events(raws[..|raws| - 1], f), f(raws[|raws| - 1]), c);
  }

  lemma {:induction false} NewsHeard(env: Env, content: Content, raws: seq<Parsed<News>>, c: string)
    requires content.news == []
    ensures HeardAll(content, Events(raws, NewsEvents(env)), c) == content.(news := Briefs(raws, c))
  {
    if raws != [] {
      var n := |raws| - 1;
      NewsHeard(env, content, raws[..n], c);
      EventsHeard(content, raws, NewsEvents(env), c);
      NewsHeard1(env, content.(news := Briefs(raws[..n], c)), raws[n], c);
    }
  }

  lemma FoundHeard(content: Content, noted: seq<Event>, u: Unit, c: string)
    requires |noted| <= 1 && (noted != [] ==> noted[0].Noted?)
    ensures HeardAll(content, noted + [Found(u)], c) == Heard(content, Found(u), c)
  {
    NotedHeard(content, noted, [Found(u)], c);
    assert [Found(u)][..0] == [];
  }

  lemma BadHeard(content: Content, noted: Event, c: string)
    requires noted.Noted?
    ensures HeardAll(content, [noted], c) == content
  {
    assert [noted][..0] == [];
  }

  lemma ProductHeard1(env: Env, content: Content, raw: Parsed<Product>, c: string)
    ensures HeardAll(content, ProductEvents1(env, raw), c)
         == if raw.Good? && raw.value.competitor == c
            then Changed(content, ProductChange(raw.value.tiers, raw.value.features, raw.value.advantages)) else content
  {
    if raw.Good? {
      FoundHeard(content, if raw.value.lowSignal then [Noted(LowSignal(FromProduct, raw.value.competitor))] else [],
                 ProductUnit(env, raw.value), c);
    } else {
      BadHeard(content, Noted(Unparseable(FromProduct)), c);
    }
  }

  lemma ReviewHeard1(env: Env, content: Content, raw: Parsed<Review>, c: string)
    ensures HeardAll(content, ReviewEvents1(env, raw), c)
         == if raw.Good? && raw.value.competitor == c
            then Changed(content, ReviewChange(raw.value.complaints, raw.value.gaps, raw.value.sentiment)) else content
  {
    if raw.Good? {
      FoundHeard(content, if raw.value.lowSignal then [Noted(LowSignal(FromReview, raw.value.competitor))] else [],
                 ReviewUnit(env, raw.value), c);
    } else {
      BadHeard(content, Noted(Unparseable(FromReview)), c);
    }
  }

  lemma {:induction false} ProductsHeard(env: Env, content: Content, raws: seq<Parsed<Product>>, c: string)
    requires content.tiers == content.features == content.advantages == []
    ensures HeardAll(content, Events(raws, ProductEvents(env)), c)
         == content.(tiers := ProductField(raws, c, Tiers), features := ProductField(raws, c, Features),
                     advantages := ProductField(raws, c, Advantages))
  {
    if raws != [] {
      var n := |raws| - 1;
      ProductsHeard(env, content, raws[..n], c);
      EventsHeard(content, raws, ProductEvents(env), c);
      ProductHeard1(env, HeardAll(content, Events(raws[..n], ProductEvents(env)), c), raws[n], c);
      ProductFieldSnoc(raws, c, Tiers);
      ProductFieldSnoc(raws, c, Features);
      ProductFieldSnoc(raws, c, Advantages);
    }
  }

  lemma ProductFieldSnoc(raws: seq<Parsed<Product>>, c: string, f: Product -> seq<string>)
    requires raws != []
    ensures var last := raws[|raws| - 1]; var init := ProductField(raws[..|raws| - 1], c, f);
      ProductField(raws, c, f) == if last.Good? && last.value.competitor == c then init + f(last.value) else init
  {
  }

  lemma {:induction false} ReviewsHeard(env: Env, content: Content, raws: seq<Parsed<Review>>, c: string)
    requires content.complaints == content.gaps == [] && content.sentiment == Neutral
    ensures HeardAll(content, Events(raws, ReviewEvents(env)), c)
         == content.(complaints := ReviewField(raws, c, Complaints), gaps := ReviewField(raws, c, Gaps),
                     sentiment := LastSentiment(raws, c))
  {
    if raws != [] {
      var n := |raws| - 1;
      ReviewsHeard(env, content, raws[..n], c);
      EventsHeard(content, raws, ReviewEvents(env), c);
      ReviewHeard1(env, HeardAll(content, Events(raws[..n], ReviewEvents(env)), c), raws[n], c);
      ReviewFieldSnoc(raws, c, Complaints);
      ReviewFieldSnoc(raws, c, Gaps);
    }
  }

  lemma ReviewFieldSnoc(raws: seq<Parsed<Review>>, c: string, f: Review -> seq<string>)
    requires raws != []
    ensures var last := raws[|raws| - 1]; var init := ReviewField(raws[..|raws| - 1], c, f);
      ReviewField(raws, c, f) == if last.Good? && last.value.competitor == c then init + f(last.value) else init
  {
  }

  /** Each rollup holds exactly what the inputs say about its rival: every list is the concatenation, in order, of that
      field over the well-formed items of that rival, and the sentiment is the one of its last review. */
  lemma RollupsTellTheInputs(env: Env, x: Inputs, c: string)
    ensures At(Merged(env, x), c).content == Told(x, c)
  {
    var news, products, reviews := Events(x.news, NewsEvents(env)), Events(x.products, ProductEvents(env)),
                                   Events(x.reviews, ReviewEvents(env));
    RunContent(env, Script(env, x), c);
    HeardAppend(EMPTY.content, news + products, reviews, c);
    HeardAppend(EMPTY.content, news, products, c);
    NewsHeard(env, EMPTY.content, x.news, c);
    ProductsHeard(env, HeardAll(EMPTY.content, news, c), x.products, c);
    ReviewsHeard(env, HeardAll(EMPTY.content, news + products, c), x.reviews, c);
  }

  // ------------------------------------------------------------------ what the index and the signals say of the inputs

  /** A place that a branch says it read. */
  datatype Source = Source(agent: Agent, competitor: string, url: string, date: string, snippet: string)

  function SourceOf(row: Row): Source {
    Source(row.agent, row.competitor, row.url, row.date, row.snippet)
  }

  function SourcesOf(rows: seq<Row>): seq<Source> {
    seq(|rows|, i requires 0 <= i < |rows| => SourceOf(rows[i]))
  }

  function NewsSources(raw: Parsed<News>): seq<Source> {
    if raw.Bad? then []
    else
      var items := raw.value.items;
      seq(|items|, i requires 0 <= i < |items| => NewsSource(raw.value.competitor, items[i]))
  }

  /** A row of the news agent shows the event and its impact, as far as they fit. */
  function NewsSource(c: string, it: NewsItem): Source {
    Source(FromNews, c, it.url, it.date, Cut(it.event + " \U{2014} " + it.impact))
  }

  /** A row of the product agent shows the first two pricing tiers, or the positioning where there is nothing to show. */
  function ProductText(p: Product): string {
    if |p.tiers| >= 2 then p.tiers[0] + "; " + p.tiers[1]
    else if |p.tiers| == 1 && p.tiers[0] != "" then p.tiers[0]
    else p.positioning
  }

  /** A row of the review agent shows the first two complaints. */
  function ReviewText(r: Review): string {
    if |r.complaints| >= 2 then r.complaints[0] + "; " + r.complaints[1]
    else if |r.complaints| == 1 then r.complaints[0]
    else ""
  }

  function Listed(agent: Agent, c: string, urls: seq<string>, text: string): seq<Source> {
    seq(|urls|, i requires 0 <= i < |urls| => Source(agent, c, urls[i], "", Cut(text)))
  }

  function ProductSources(raw: Parsed<Product>): seq<Source> {
    if raw.Bad? then [] else Listed(FromProduct, raw.value.competitor, raw.value.sources, ProductText(raw.value))
  }

  function ReviewSources(raw: Parsed<Review>): seq<Source> {
    if raw.Bad? then [] else Listed(FromReview, raw.value.competitor, raw.value.sources, ReviewText(raw.value))
  }

  datatype Claim = Claim(agent: Agent, competitor: string, payload: Payload)

  function NewsClaims(raw: Parsed<News>): seq<Claim> {
    if raw.Bad? then []
    else
      var items := raw.value.items;
      seq(|items|, i requires 0 <= i < |items| =>
        Claim(FromNews, raw.value.competitor, Launch(items[i].event, items[i].impact)))
  }

  function ProductClaims(raw: Parsed<Product>): seq<Claim> {
    if raw.Bad? then [] else [Claim(FromProduct, raw.value.competitor, Pricing(raw.value.tiers, raw.value.positioning))]
  }

  function ReviewClaims(raw: Parsed<Review>): seq<Claim> {
    if raw.Bad? then [] else [Claim(FromReview, raw.value.competitor, Complaint(raw.value.complaints, raw.value.sentiment))]
  }

  function Flat<T, U>(xs: seq<T>, f: T -> seq<U>): seq<U> {
    if xs == [] then [] else Flat(xs[..|xs| - 1], f) + f(xs[|xs| - 1])
  }

  function SourcesIn(events: seq<Event>): seq<Source> {
    SourcesOf(RowsIn(events))
  }

  function ClaimsIn(events: seq<Event>): seq<Claim> {
    var signals := SignalsIn(events);
    seq(|signals|, i requires 0 <= i < |signals| => Claim(signals[i].0, signals[i].1, signals[i].2))
  }

  lemma {:induction false} InAppend(a: seq<Event>, b: seq<Event>)
    ensures RowsIn(a + b) == RowsIn(a) + RowsIn(b)
    ensures SignalsIn(a + b) == SignalsIn(a) + SignalsIn(b)
  {
    if b == [] {
      assert a + b == a;
    } else {
      assert (a + b)[..|a + b| - 1] == a + b[..|b| - 1];
      InAppend(a, b[..|b| - 1]);
    }
  }

  lemma TellAppend(a: seq<Event>, b: seq<Event>)
    ensures SourcesIn(a + b) == SourcesIn(a) + SourcesIn(b)
    ensures ClaimsIn(a + b) == ClaimsIn(a) + ClaimsIn(b)
  {
    InAppend(a, b);
  }

  lemma OneTells(e: Event)
    ensures SourcesIn([e]) == SourcesOf(UnitRows(e))
    ensures ClaimsIn([e]) == if e.Found? then [Claim(e.one.agent, e.one.competitor, e.one.payload)] else []
  {
    assert [e][..0] == [];
    assert RowsIn([e]) == RowsIn([e][..0]) + UnitRows(e) == UnitRows(e);
    assert SignalsIn([e])
        == SignalsIn([e][..0]) + (if e.Found? then [(e.one.agent, e.one.competitor, e.one.payload)] else []);
    assert SignalsIn([e][..0]) == [];
  }

  lemma NothingTells()
    ensures SourcesIn([]) == [] && ClaimsIn([]) == []
  {
  }

  /** Findings tell of no source and no claim. */
  lemma NotedTells(noted: seq<Event>, events: seq<Event>)
    requires |noted| <= 1 && (noted != [] ==> noted[0].Noted?)
    ensures SourcesIn(noted + events) == SourcesIn(events) && ClaimsIn(noted + events) == ClaimsIn(events)
  {
    TellAppend(noted, events);
    if noted == [] {
      NothingTells();
    } else {
      assert noted == [noted[0]];
      OneTells(noted[0]);
    }
  }

  lemma {:induction false} ItemsTell(env: Env, c: string, items: seq<NewsItem>)
    ensures SourcesIn(NewsItemEvents(env, c, items)) == NewsSources(Good(News(c, items, false)))
    ensures ClaimsIn(NewsItemEvents(env, c, items)) == NewsClaims(Good(News(c, items, false)))
  {
    if items != [] {
      var init, last := items[..|items| - 1], items[|items| - 1];
      ItemsTell(env, c, init);
      assert NewsItemEvents(env, c, items) == NewsItemEvents(env, c, init) + [Found(NewsUnit(env, c, last))];
      TellAppend(NewsItemEvents(env, c, init), [Found(NewsUnit(env, c, last))]);
      OneTells(Found(NewsUnit(env, c, last)));
      assert SourcesOf(NewsUnit(env, c, last).rows) == [NewsSource(c, last)];
      assert NewsSources(Good(News(c, items, false)))
          == NewsSources(Good(News(c, init, false))) + [NewsSource(c, last)];
      assert NewsClaims(Good(News(c, items, false)))
          == NewsClaims(Good(News(c, init, false))) + [Claim(FromNews, c, Launch(last.event, last.impact))];
    }
  }

  lemma NewsTell(env: Env, raw: Parsed<News>)
    ensures SourcesIn(NewsEvents1(env, raw)) == NewsSources(raw) && ClaimsIn(NewsEvents1(env, raw)) == NewsClaims(raw)
  {
    match raw
    case Bad => OneTells(Noted(Unparseable(FromNews)));
    case Good(ns) =>
      NotedTells(if ns.lowSignal || ns.items == [] then [Noted(LowSignal(FromNews, ns.competitor))] else [],
                 NewsItemEvents(env, ns.competitor, ns.items));
      ItemsTell(env, ns.competitor, ns.items);
      assert NewsSources(Good(News(ns.competitor, ns.items, false))) == NewsSources(raw);
      assert NewsClaims(Good(News(ns.competitor, ns.items, false))) == NewsClaims(raw);
  }

  lemma ProductTells(env: Env, raw: Parsed<Product>)
    ensures SourcesIn(ProductEvents1(env, raw)) == ProductSources(raw)
    ensures ClaimsIn(ProductEvents1(env, raw)) == ProductClaims(raw)
  {
    match raw
    case Bad => OneTells(Noted(Unparseable(FromProduct)));
    case Good(p) =>
      NotedTells(if p.lowSignal then [Noted(LowSignal(FromProduct, p.competitor))] else [], [Found(ProductUnit(env, p))]);
      OneTells(Found(ProductUnit(env, p)));
      assert p.tiers != [] ==> JoinTwo(p.tiers) == if |p.tiers| == 1 then p.tiers[0] else p.tiers[0] + "; " + p.tiers[1];
      assert SourcesOf(ProductUnit(env, p).rows) == ProductSources(raw);
  }

  lemma ReviewTells(env: Env, raw: Parsed<Review>)
    ensures SourcesIn(ReviewEvents1(env, raw)) == ReviewSources(raw)
    ensures ClaimsIn(ReviewEvents1(env, raw)) == ReviewClaims(raw)
  {
    match raw
    case Bad => OneTells(Noted(Unparseable(FromReview)));
    case Good(r) =>
      NotedTells(if r.lowSignal then [Noted(LowSignal(FromReview, r.competitor))] else [], [Found(ReviewUnit(env, r))]);
      OneTells(Found(ReviewUnit(env, r)));
      assert SourcesOf(ReviewUnit(env, r).rows) == ReviewSources(raw);
  }

  lemma {:induction false} EventsTell<T>(raws: seq<T>, f: T -> seq<Event>, sources: T -> seq<Source>, claims: T -> seq<Claim>)
    requires forall raw :: SourcesIn(f(raw)) == sources(raw) && ClaimsIn(f(raw)) == claims(raw)
    ensures SourcesIn(Events(raws, f)) == Flat(raws, sources) && ClaimsIn(Events(raws, f)) == Flat(raws, claims)
  {
    if raws == [] {
      NothingTells();
    } else {
      var init, last := raws[..|raws| - 1], raws[|raws| - 1];
      EventsTell(init, f, sources, claims);
      TellAppend(Events(init, f), f(last));
    }
  }

  /** The script tells exactly what the well-formed inputs say: their sources and their claims, branch by branch. */
  lemma ScriptTells(env: Env, x: Inputs)
    ensures SourcesIn(Script(env, x)) == Flat(x.news, NewsSources) + Flat(x.products, ProductSources) + Flat(x.reviews, ReviewSources)
    ensures ClaimsIn(Script(env, x)) == Flat(x.news, NewsClaims) + Flat(x.products, ProductClaims) + Flat(x.reviews, ReviewClaims)
  {
    var news, products, reviews := Events(x.news, NewsEvents(env)), Events(x.products, ProductEvents(env)),
                                   Events(x.reviews, ReviewEvents(env));
    forall raw ensures SourcesIn(NewsEvents(env)(raw)) == NewsSources(raw) && ClaimsIn(NewsEvents(env)(raw)) == NewsClaims(raw) {
      NewsTell(env, raw);
    }
    EventsTell(x.news, NewsEvents(env), NewsSources, NewsClaims);
    forall raw ensures SourcesIn(ProductEvents(env)(raw)) == ProductSources(raw)
                    && ClaimsIn(ProductEvents(env)(raw)) == ProductClaims(raw) {
      ProductTells(env, raw);
    }
    EventsTell(x.products, ProductEvents(env), ProductSources, ProductClaims);
    forall raw ensures SourcesIn(ReviewEvents(env)(raw)) == ReviewSources(raw)
                    && ClaimsIn(ReviewEvents(env)(raw)) == ReviewClaims(raw) {
      ReviewTells(env, raw);
    }
    EventsTell(x.reviews, ReviewEvents(env), ReviewSources, ReviewClaims);
    TellAppend(news + products, reviews);
    TellAppend(news, products);
  }

  function IndexSources(index: seq<(string, Row)>): seq<Source> {
    seq(|index|, i requires 0 <= i < |index| => SourceOf(index[i].1))
  }

  function SignalClaims(signals: seq<Signal>): seq<Claim> {
    seq(|signals|, i requires 0 <= i < |signals| => Claim(signals[i].agent, signals[i].competitor, signals[i].payload))
  }

  /** The index lists exactly the sources of the well-formed inputs, in order, each under its agent, rival and date and with
      its text, cut at the cap; and
      there is one signal for each news item, product record and review record, in order, with its own payload. */
  lemma GraphTellsTheInputs(env: Env, x: Inputs)
    requires Fresh(env) && env.textRunId
    ensures var g := Merged(env, x);
      && IndexSources(g.index)
           == Flat(x.news, NewsSources) + Flat(x.products, ProductSources) + Flat(x.reviews, ReviewSources)
      && SignalClaims(g.signals) == Flat(x.news, NewsClaims) + Flat(x.products, ProductClaims) + Flat(x.reviews, ReviewClaims)
  {
    var g := Merged(env, x);
    EvidenceIsConsistent(env, x);
    ScriptTells(env, x);
    assert IndexSources(g.index) == SourcesIn(Script(env, x));
    assert forall i :: 0 <= i < |g.signals| ==> Bare(g.signals)[i] == (g.signals[i].agent, g.signals[i].competitor, g.signals[i].payload);
    assert |Bare(g.signals)| == |g.signals|;
    assert SignalClaims(g.signals) == ClaimsIn(Script(env, x));
  }

  // ------------------------------------------------------------------ what is noted

  function NotesIn(events: seq<Event>): seq<Finding> {
    if events == [] then []
    else NotesIn(events[..|events| - 1]) + (if events[|events| - 1].Noted? then [events[|events| - 1].finding] else [])
  }

  lemma {:induction false} NotesAppend(a: seq<Event>, b: seq<Event>)
    ensures NotesIn(a + b) == NotesIn(a) + NotesIn(b)
  {
    if b == [] {
      assert a + b == a;
    } else {
      assert (a + b)[..|a + b| - 1] == a + b[..|b| - 1];
      NotesAppend(a, b[..|b| - 1]);
    }
  }

  lemma {:induction false} RowsNoteNothing(env: Env, g: Graph, rows: seq<Row>)
    requires env.textRunId
    ensures AddRows(env, g, rows).findings == g.findings
  {
    if rows != [] {
      RowsNoteNothing(env, g, rows[..|rows| - 1]);
    }
  }

  lemma {:induction false} RunNotes(env: Env, g: Graph, events: seq<Event>)
    requires env.textRunId
    ensures Run(env, g, events).findings == g.findings + NotesIn(events)
  {
    if events != [] {
      var n := |events| - 1;
      RunNotes(env, g, events[..n]);
      if events[n].Found? {
        var u := events[n].one;
        RowsNoteNothing(env, Change1(Run(env, g, events[..n]), u.competitor, u.change), u.rows);
      }
    }
  }

  function NewsNotes(raw: Parsed<News>): seq<Finding> {
    if raw.Bad? then [Unparseable(FromNews)]
    else if raw.value.lowSignal || raw.value.items == [] then [LowSignal(FromNews, raw.value.competitor)] else []
  }

  function ProductNotes(raw: Parsed<Product>): seq<Finding> {
    if raw.Bad? then [Unparseable(FromProduct)]
    else if raw.value.lowSignal then [LowSignal(FromProduct, raw.value.competitor)] else []
  }

  function ReviewNotes(raw: Parsed<Review>): seq<Finding> {
    if raw.Bad? then [Unparseable(FromReview)]
    else if raw.value.lowSignal then [LowSignal(FromReview, raw.value.competitor)] else []
  }

  lemma OneNotes(e: Event)
    ensures NotesIn([e]) == if e.Noted? then [e.finding] else []
  {
    assert [e][..0] == [];
  }

  lemma {:induction false} FoundNoteNothing(events: seq<Event>)
    requires forall i :: 0 <= i < |events| ==> events[i].Found?
    ensures NotesIn(events) == []
  {
    if events != [] {
      FoundNoteNothing(events[..|events| - 1]);
    }
  }

  lemma NotedFirst(noted: seq<Event>, found: seq<Event>)
    requires |noted| <= 1 && (noted != [] ==> noted[0].Noted?)
    requires forall i :: 0 <= i < |found| ==> found[i].Found?
    ensures NotesIn(noted + found) == if noted == [] then [] else [noted[0].finding]
  {
    FoundNoteNothing(found);
    if noted == [] {
      assert noted + found == found;
    } else {
      OneNotes(noted[0]);
      assert noted == [noted[0]];
      NotesAppend([noted[0]], found);
    }
  }

  lemma NewsNote(env: Env, raw: Parsed<News>)
    ensures NotesIn(NewsEvents1(env, raw)) == NewsNotes(raw)
  {
    match raw
    case Bad => OneNotes(Noted(Unparseable(FromNews)));
    case Good(ns) =>
      NotedFirst(if ns.lowSignal || ns.items == [] then [Noted(LowSignal(FromNews, ns.competitor))] else [],
                 NewsItemEvents(env, ns.competitor, ns.items));
  }

  lemma ProductNote(env: Env, raw: Parsed<Product>)
    ensures NotesIn(ProductEvents1(env, raw)) == ProductNotes(raw)
  {
    match raw
    case Bad => OneNotes(Noted(Unparseable(FromProduct)));
    case Good(p) =>
      NotedFirst(if p.lowSignal then [Noted(LowSignal(FromProduct, p.competitor))] else [], [Found(ProductUnit(env, p))]);
  }

  lemma ReviewNote(env: Env, raw: Parsed<Review>)
    ensures NotesIn(ReviewEvents1(env, raw)) == ReviewNotes(raw)
  {
    match raw
    case Bad => OneNotes(Noted(Unparseable(FromReview)));
    case Good(r) =>
      NotedFirst(if r.lowSignal then [Noted(LowSignal(FromReview, r.competitor))] else [], [Found(ReviewUnit(env, r))]);
  }

  lemma {:induction false} EventsNote<T>(raws: seq<T>, f: T -> seq<Event>, notes: T -> seq<Finding>)
    requires forall raw :: NotesIn(f(raw)) == notes(raw)
    ensures NotesIn(Events(raws, f)) == Flat(raws, notes)
  {
    if raws != [] {
      var init, last := raws[..|raws| - 1], raws[|raws| - 1];
      EventsNote(init, f, notes);
      NotesAppend(Events(init, f), f(last));
    }
  }

  /** The findings are exactly these, in order: one for each input that does not parse, and one for each well-formed one
      that is marked as low signal, or that is a news record without items. */
  lemma FindingsTellTheInputs(env: Env, x: Inputs)
    requires env.textRunId
    ensures Merged(env, x).findings == Flat(x.news, NewsNotes) + Flat(x.products, ProductNotes) + Flat(x.reviews, ReviewNotes)
  {
    var news, products, reviews := Events(x.news, NewsEvents(env)), Events(x.products, ProductEvents(env)),
                                   Events(x.reviews, ReviewEvents(env));
    RunNotes(env, NOTHING, Script(env, x));
    NotesAppend(news + products, reviews);
    NotesAppend(news, products);
    forall raw ensures NotesIn(NewsEvents(env)(raw)) == NewsNotes(raw) {
      NewsNote(env, raw);
    }
    EventsNote(x.news, NewsEvents(env), NewsNotes);
    forall raw ensures NotesIn(ProductEvents(env)(raw)) == ProductNotes(raw) {
      ProductNote(env, raw);
    }
    EventsNote(x.products, ProductEvents(env), ProductNotes);
    forall raw ensures NotesIn(ReviewEvents(env)(raw)) == ReviewNotes(raw) {
      ReviewNote(env, raw);
    }
    EventsNote(x.reviews, ReviewEvents(env), ReviewNotes);
  }

  // ------------------------------------------------------------------ what the rows look like

  function AgentName(agent: Agent): string {
    match agent
    case FromNews => "news"
    case FromProduct => "product"
    case FromReview => "review"
  }

  function ClaimKind(agent: Agent): string {
    match agent
    case FromNews => "news:"
    case FromProduct => "pricing:"
    case FromReview => "review:"
  }

  /** The claim of a row is that of its agent and rival, its source is named after its URL, its snippet fits. */
  predicate Formed(env: Env, row: Row) {
    && row.claimRef == ClaimKind(row.agent) + env.slug(row.competitor)
    && row.source == env.host(row.url, AgentName(row.agent))
    && |row.snippet| <= SNIPPET_CAP
  }

  predicate FormedRows(env: Env, e: Event) {
    e.Found? ==> forall i :: 0 <= i < |e.one.rows| ==> Formed(env, e.one.rows[i])
  }

  lemma {:induction false} EventsFormed<T>(env: Env, xs: seq<T>, f: T -> seq<Event>)
    requires forall x, i :: x in xs && 0 <= i < |f(x)| ==> FormedRows(env, f(x)[i])
    ensures forall i :: 0 <= i < |Events(xs, f)| ==> FormedRows(env, Events(xs, f)[i])
  {
    if xs != [] {
      EventsFormed(env, xs[..|xs| - 1], f);
    }
  }

  lemma {:induction false} RowsFormed(env: Env, events: seq<Event>)
    requires forall i :: 0 <= i < |events| ==> FormedRows(env, events[i])
    ensures forall i :: 0 <= i < |RowsIn(events)| ==> Formed(env, RowsIn(events)[i])
  {
    if events != [] {
      RowsFormed(env, events[..|events| - 1]);
      assert FormedRows(env, events[|events| - 1]);
    }
  }

  lemma ScriptFormed(env: Env, x: Inputs)
    ensures forall i :: 0 <= i < |RowsIn(Script(env, x))| ==> Formed(env, RowsIn(Script(env, x))[i])
  {
    EventsFormed(env, x.news, NewsEvents(env));
    EventsFormed(env, x.products, ProductEvents(env));
    EventsFormed(env, x.reviews, ReviewEvents(env));
    RowsFormed(env, Script(env, x));
  }

  /** Every indexed row is well formed, so no row is ever rejected for its snippet. */
  lemma RowsAreFormed(env: Env, x: Inputs)
    requires Fresh(env) && env.textRunId
    ensures var g := Merged(env, x); forall i :: 0 <= i < |g.index| ==> Formed(env, g.index[i].1)
  {
    EvidenceIsConsistent(env, x);
    ScriptFormed(env, x);
    var rows := RowsIn(Script(env, x));
    assert Merged(env, x).index == Numbered(env, rows);
  }

  // ------------------------------------------------------------------ which rivals there are

  function RivalOf(e: Event): set<string> {
    if e.Found? then {e.one.competitor} else {}
  }

  function RivalsIn(events: seq<Event>): set<string> {
    if events == [] then {} else RivalsIn(events[..|events| - 1]) + RivalOf(events[|events| - 1])
  }

  /** The rivals of whom the inputs tell something: a news item, or a product or review record, empty or not. */
  function Rivals(x: Inputs): set<string> {
    (set n | n in x.news && n.Good? && n.value.items != [] :: n.value.competitor) +
    (set p | p in x.products && p.Good? :: p.value.competitor) +
    (set r | r in x.reviews && r.Good? :: r.value.competitor)
  }

  lemma {:induction false} RowsKeys(env: Env, g: Graph, rows: seq<Row>, c: string)
    requires c in g.rollups && forall i :: 0 <= i < |rows| ==> rows[i].competitor == c
    ensures AddRows(env, g, rows).rollups.Keys == g.rollups.Keys
  {
    if rows != [] {
      RowsKeys(env, g, rows[..|rows| - 1], c);
    }
  }

  lemma {:induction false} RunKeys(env: Env, events: seq<Event>)
    requires forall i :: 0 <= i < |events| ==> OwnRows(events[i])
    ensures Run(env, NOTHING, events).rollups.Keys == RivalsIn(events)
  {
    if events != [] {
      var n := |events| - 1;
      RunKeys(env, events[..n]);
      var e := events[n];
      if e.Found? {
        RowsKeys(env, Change1(Run(env, NOTHING, events[..n]), e.one.competitor, e.one.change), e.one.rows, e.one.competitor);
      }
    }
  }

  lemma {:induction false} RivalsAppend(a: seq<Event>, b: seq<Event>)
    ensures RivalsIn(a + b) == RivalsIn(a) + RivalsIn(b)
  {
    if b == [] {
      assert a + b == a;
    } else {
      assert (a + b)[..|a + b| - 1] == a + b[..|b| - 1];
      RivalsAppend(a, b[..|b| - 1]);
    }
  }

  lemma RivalsOne(e: Event)
    ensures RivalsIn([e]) == RivalOf(e)
  {
    assert [e][..0] == [];
  }

  lemma {:induction false} ItemsRivals(env: Env, who: string, items: seq<NewsItem>)
    ensures RivalsIn(NewsItemEvents(env, who, items)) == if items == [] then {} else {who}
  {
    if items != [] {
      var n := |items| - 1;
      ItemsRivals(env, who, items[..n]);
      assert NewsItemEvents(env, who, items)[..n] == NewsItemEvents(env, who, items[..n]);
    }
  }

  lemma NotedRivals(noted: seq<Event>, events: seq<Event>)
    requires |noted| <= 1 && (noted != [] ==> noted[0].Noted?)
    ensures RivalsIn(noted + events) == RivalsIn(events)
  {
    RivalsAppend(noted, events);
    if noted != [] {
      RivalsOne(noted[0]);
      assert noted == [noted[0]];
    }
  }

  lemma NewsRivals1(env: Env, raw: Parsed<News>)
    ensures RivalsIn(NewsEvents1(env, raw)) == if raw.Good? && raw.value.items != [] then {raw.value.competitor} else {}
  {
    match raw
    case Bad => RivalsOne(Noted(Unparseable(FromNews)));
    case Good(ns) =>
      NotedRivals(if ns.lowSignal || ns.items == [] then [Noted(LowSignal(FromNews, ns.competitor))] else [],
                  NewsItemEvents(env, ns.competitor, ns.items));
      ItemsRivals(env, ns.competitor, ns.items);
  }

  lemma ProductRivals1(env: Env, raw: Parsed<Product>)
    ensures RivalsIn(ProductEvents1(env, raw)) == if raw.Good? then {raw.value.competitor} else {}
  {
    match raw
    case Bad => RivalsOne(Noted(Unparseable(FromProduct)));
    case Good(p) =>
      NotedRivals(if p.lowSignal then [Noted(LowSignal(FromProduct, p.competitor))] else [], [Found(ProductUnit(env, p))]);
      RivalsOne(Found(ProductUnit(env, p)));
  }

  lemma ReviewRivals1(env: Env, raw: Parsed<Review>)
    ensures RivalsIn(ReviewEvents1(env, raw)) == if raw.Good? then {raw.value.competitor} else {}
  {
    match raw
    case Bad => RivalsOne(Noted(Unparseable(FromReview)));
    case Good(r) =>
      NotedRivals(if r.lowSignal then [Noted(LowSignal(FromReview, r.competitor))] else [], [Found(ReviewUnit(env, r))]);
      RivalsOne(Found(ReviewUnit(env, r)));
  }

  lemma {:induction false} EventsRivals<T>(raws: seq<T>, f: T -> seq<Event>, c: string)
    ensures c in RivalsIn(Events(raws, f)) <==> exists raw :: raw in raws && c in RivalsIn(f(raw))
  {
    if raws != [] {
      var n := |raws| - 1;
      EventsRivals(raws[..n], f, c);
      RivalsAppend(Events(raws[..n], f), f(raws[n]));
      assert raws == raws[..n] + [raws[n]];
    }
  }

  lemma NewsRivals(env: Env, raws: seq<Parsed<News>>)
    ensures RivalsIn(Events(raws, NewsEvents(env)))
         == set n | n in raws && n.Good? && n.value.items != [] :: n.value.competitor
  {
    forall raw ensures RivalsIn(NewsEvents(env)(raw))
                    == if raw.Good? && raw.value.items != [] then {raw.value.competitor} else {} {
      NewsRivals1(env, raw);
    }
    forall c ensures c in RivalsIn(Events(raws, NewsEvents(env)))
                <==> exists raw :: raw in raws && c in RivalsIn(NewsEvents(env)(raw)) {
      EventsRivals(raws, NewsEvents(env), c);
    }
  }

  lemma ProductRivals(env: Env, raws: seq<Parsed<Product>>)
    ensures RivalsIn(Events(raws, ProductEvents(env))) == set p | p in raws && p.Good? :: p.value.competitor
  {
    forall raw ensures RivalsIn(ProductEvents(env)(raw)) == if raw.Good? then {raw.value.competitor} else {} {
      ProductRivals1(env, raw);
    }
    forall c ensures c in RivalsIn(Events(raws, ProductEvents(env)))
                <==> exists raw :: raw in raws && c in RivalsIn(ProductEvents(env)(raw)) {
      EventsRivals(raws, ProductEvents(env), c);
    }
  }

  lemma ReviewRivals(env: Env, raws: seq<Parsed<Review>>)
    ensures RivalsIn(Events(raws, ReviewEvents(env))) == set r | r in raws && r.Good? :: r.value.competitor
  {
    forall raw ensures RivalsIn(ReviewEvents(env)(raw)) == if raw.Good? then {raw.value.competitor} else {} {
      ReviewRivals1(env, raw);
    }
    forall c ensures c in RivalsIn(Events(raws, ReviewEvents(env)))
                <==> exists raw :: raw in raws && c in RivalsIn(ReviewEvents(env)(raw)) {
      EventsRivals(raws, ReviewEvents(env), c);
    }
  }

  /** A rival has a rollup exactly when the inputs tell something of it. */
  lemma RollupsAreTheRivals(env: Env, x: Inputs)
    ensures Merged(env, x).rollups.Keys == Rivals(x)
  {
    var news, products, reviews := Events(x.news, NewsEvents(env)), Events(x.products, ProductEvents(env)),
                                   Events(x.reviews, ReviewEvents(env));
    ScriptOwnRows(env, x);
    RunKeys(env, Script(env, x));
    RivalsAppend(news + products, reviews);
    RivalsAppend(news, products);
    NewsRivals(env, x.news);
    ProductRivals(env, x.products);
    ReviewRivals(env, x.reviews);
  }

  /** Every rollup reaches the strategist exactly when no rival bears the name of the index key; such a rival's rollup
      is overwritten by the index. */
  lemma NoRollupIsLostIff(env: Env, x: Inputs)
    ensures var g := Merged(env, x);
      && PerCompetitor(g)[INDEX_KEY] == TheIndex(g.index)
      && ((forall c :: c in g.rollups ==> PerCompetitor(g)[c] == OfRival(g.rollups[c])) <==> INDEX_KEY !in Rivals(x))
  {
    RollupsAreTheRivals(env, x);
  }

  // ------------------------------------------------------------------ without a textual run id

  lemma {:induction false} TextlessRows(env: Env, g: Graph, rows: seq<Row>)
    requires !env.textRunId
    ensures AddRows(env, g, rows).signals == g.signals && AddRows(env, g, rows).index == g.index
    ensures AddRows(env, g, rows).rollups == g.rollups && RowIds(env, g, rows) == []
    ensures |AddRows(env, g, rows).findings| == |g.findings| + |rows|
  {
    if rows != [] {
      TextlessRows(env, g, rows[..|rows| - 1]);
    }
  }

  lemma {:induction false} TextlessRun(env: Env, events: seq<Event>)
    requires !env.textRunId
    ensures var g := Run(env, NOTHING, events);
      && g.signals == [] && g.index == []
      && (forall c :: At(g, c).ids == [])
      && |g.findings| == |events| + |RowsIn(events)|
  {
    if events != [] {
      var n := |events| - 1;
      TextlessRun(env, events[..n]);
      var e, g := events[n], Run(env, NOTHING, events[..n]);
      if e.Found? {
        TextlessRows(env, Change1(g, e.one.competitor, e.one.change), e.one.rows);
        var g1 := Change1(g, e.one.competitor, e.one.change);
        assert Step(env, g, e).rollups == g1.rollups;
        assert forall c :: At(g1, c).ids == At(g, c).ids;
        assert forall c :: At(Step(env, g, e), c) == At(g1, c);
      } else {
        assert forall c :: At(Step(env, g, e), c) == At(g, c);
      }
    }
  }

  /** A run id that is no text costs every row and every signal, one finding each, but neither the rollups' content nor
      the run. */
  lemma NothingIsCitedWithoutRunId(env: Env, x: Inputs)
    requires !env.textRunId
    ensures var g := Merged(env, x);
      && g.signals == [] && g.index == [] && (forall c :: At(g, c).ids == [] && At(g, c).content == Told(x, c))
      && |g.findings| == |Script(env, x)| + |RowsIn(Script(env, x))|
  {
    TextlessRun(env, Script(env, x));
    forall c ensures At(Merged(env, x), c).content == Told(x, c) {
      RollupsTellTheInputs(env, x, c);
    }
  }

  // ------------------------------------------------------------------ ids are only names

  function RenamedIds(r: string -> string, ids: seq<string>): seq<string> {
    seq(|ids|, i requires 0 <= i < |ids| => r(ids[i]))
  }

  function RenamedIndex(r: string -> string, index: seq<(string, Row)>): seq<(string, Row)> {
    seq(|index|, i requires 0 <= i < |index| => (r(index[i].0), index[i].1))
  }

  function RenamedSignals(r: string -> string, signals: seq<Signal>): seq<Signal> {
    seq(|signals|, i requires 0 <= i < |signals| => signals[i].(ids := RenamedIds(r, signals[i].ids)))
  }

  function Renamed(r: string -> string, g: Graph): Graph {
    g.(signals := RenamedSignals(r, g.signals), index := RenamedIndex(r, g.index),
       rollups := map c | c in g.rollups :: g.rollups[c].(ids := RenamedIds(r, g.rollups[c].ids)))
  }

  /** The two supplies of fresh ids. */
  ghost predicate Renames(r: string -> string, env: Env, env': Env) {
    && Fresh(env) && Fresh(env') && env.textRunId && env'.textRunId
    && env'.slug == env.slug && env'.host == env.host
    && forall k: nat :: env'.ids(k) == r(env.ids(k))
  }

  ghost predicate Numbering(env: Env, g: Graph) {
    g.next == |g.index| && forall i :: 0 <= i < |g.index| ==> g.index[i].0 == env.ids(i)
  }

  lemma RenamedRow(r: string -> string, env: Env, env': Env, g: Graph, row: Row)
    requires Renames(r, env, env') && Numbering(env, g)
    ensures AddRow(env', Renamed(r, g), row) == Renamed(r, AddRow(env, g, row))
    ensures Numbering(env, AddRow(env, g, row))
  {
    var id := env.ids(g.next);
    PutFresh(g.index, id, row);
    PutFresh(Renamed(r, g).index, r(id), row);
    assert RenamedIndex(r, g.index + [(id, row)]) == RenamedIndex(r, g.index) + [(r(id), row)];
    var ids := At(g, row.competitor).ids;
    assert RenamedIds(r, ids + [id]) == RenamedIds(r, ids) + [r(id)];
    assert At(Renamed(r, g), row.competitor).ids == RenamedIds(r, ids);
    assert AddRow(env', Renamed(r, g), row).rollups == Renamed(r, AddRow(env, g, row)).rollups;
  }

  lemma RenamedSnoc(r: string -> string, ids: seq<string>, id: string)
    ensures RenamedIds(r, ids + [id]) == RenamedIds(r, ids) + [r(id)]
  {
  }

  lemma {:induction false} RenamedRows(r: string -> string, env: Env, env': Env, g: Graph, rows: seq<Row>)
    requires Renames(r, env, env') && Numbering(env, g)
    ensures AddRows(env', Renamed(r, g), rows) == Renamed(r, AddRows(env, g, rows))
    ensures RowIds(env', Renamed(r, g), rows) == RenamedIds(r, RowIds(env, g, rows))
    ensures Numbering(env, AddRows(env, g, rows))
  {
    if rows != [] {
      var n := |rows| - 1;
      RenamedRows(r, env, env', g, rows[..n]);
      RenamedRow(r, env, env', AddRows(env, g, rows[..n]), rows[n]);
      RenamedSnoc(r, RowIds(env, g, rows[..n]), env.ids(AddRows(env, g, rows[..n]).next));
    }
  }

  lemma RenamedChange(r: string -> string, g: Graph, c: string, change: Change)
    ensures Change1(Renamed(r, g), c, change) == Renamed(r, Change1(g, c, change))
  {
    assert RenamedIds(r, []) == [];
    assert At(Renamed(r, g), c) == At(g, c).(ids := RenamedIds(r, At(g, c).ids));
    assert Change1(Renamed(r, g), c, change).rollups == Renamed(r, Change1(g, c, change)).rollups;
  }

  lemma RenamedStep(r: string -> string, env: Env, env': Env, g: Graph, e: Event)
    requires Renames(r, env, env') && Numbering(env, g)
    ensures Step(env', Renamed(r, g), e) == Renamed(r, Step(env, g, e))
    ensures Numbering(env, Step(env, g, e))
  {
    if e.Found? {
      var u := e.one;
      var g1 := Change1(g, u.competitor, u.change);
      RenamedChange(r, g, u.competitor, u.change);
      RenamedRows(r, env, env', g1, u.rows);
      var s := Signal(u.agent, u.competitor, u.payload, RowIds(env, g1, u.rows));
      var signals := AddRows(env, g1, u.rows).signals;
      assert RenamedSignals(r, signals + [s]) == RenamedSignals(r, signals) + [s.(ids := RenamedIds(r, s.ids))];
    }
  }

  lemma {:induction false} RenamedRun(r: string -> string, env: Env, env': Env, events: seq<Event>)
    requires Renames(r, env, env')
    ensures Run(env', NOTHING, events) == Renamed(r, Run(env, NOTHING, events))
    ensures Numbering(env, Run(env, NOTHING, events))
  {
    if events == [] {
      assert Renamed(r, NOTHING).rollups == map[];
    } else {
      var n := |events| - 1;
      RenamedRun(r, env, env', events[..n]);
      RenamedStep(r, env, env', Run(env, NOTHING, events[..n]), events[n]);
    }
  }

  lemma {:induction false} SameEvents<T>(xs: seq<T>, f: T -> seq<Event>, f': T -> seq<Event>)
    requires forall x :: f(x) == f'(x)
    ensures Events(xs, f) == Events(xs, f')
  {
    if xs != [] {
      SameEvents(xs[..|xs| - 1], f, f');
    }
  }

  /** Fresh ids are only names: drawing other fresh ids gives the same graph with its ids renamed. */
  lemma IdsAreNames(r: string -> string, env: Env, env': Env, x: Inputs)
    requires Renames(r, env, env')
    ensures Merged(env', x) == Renamed(r, Merged(env, x))
  {
    forall raw ensures NewsEvents(env)(raw) == NewsEvents(env')(raw) {
      if raw.Good? {
        assert NewsItemEvents(env, raw.value.competitor, raw.value.items)
            == NewsItemEvents(env', raw.value.competitor, raw.value.items);
      }
    }
    SameEvents(x.news, NewsEvents(env), NewsEvents(env'));
    forall p: Product ensures ProductUnit(env, p) == ProductUnit(env', p) {
      assert ProductUnit(env, p).rows == ProductUnit(env', p).rows;
    }
    SameEvents(x.products, ProductEvents(env), ProductEvents(env'));
    forall p: Review ensures ReviewUnit(env, p) == ReviewUnit(env', p) {
      assert ReviewUnit(env, p).rows == ReviewUnit(env', p).rows;
    }
    SameEvents(x.reviews, ReviewEvents(env), ReviewEvents(env'));
    RenamedRun(r, env, env', Script(env, x));
  }
}
