/** The figures of a report reconcile with the evidence graph they are computed from (app/agents/strategist.py,
    app/core/stats.py). */
module StatsProofs {
  import opened Wrappers
  import opened Merge
  import opened MergeProofs
  import opened Stats
  import opened Confidence

  // ------------------------------------------------------------------ the rows the block reads

  function KindOf(agent: Agent): string {
    match agent
    case FromNews => "news"
    case FromProduct => "pricing"
    case FromReview => "review"
  }

  /** The values of the index; `key` is the source key of a row, `age` the days since a date, if it parses. */
  function EvidenceOf(index: seq<(string, Row)>, key: Row -> string, age: string -> Option<int>): seq<Evidence> {
    seq(|index|, i requires 0 <= i < |index| =>
      Evidence(index[i].1.competitor, KindOf(index[i].1.agent), index[i].1.claimRef, key(index[i].1), age(index[i].1.date)))
  }

  function SignalKind(payload: Payload): string {
    match payload
    case Launch(_, _) => "launch"
    case Pricing(_, _) => "pricing"
    case Complaint(_, _) => "complaint"
  }

  function SignalRows(signals: seq<Signal>): seq<SignalRow> {
    seq(|signals|, i requires 0 <= i < |signals| => SignalRow(signals[i].competitor, SignalKind(signals[i].payload)))
  }

  // ------------------------------------------------------------------ every row and signal is about a rival with a rollup

  ghost predicate AboutRivals(g: Graph) {
    && (forall i :: 0 <= i < |g.index| ==> g.index[i].1.competitor in g.rollups)
    && (forall i :: 0 <= i < |g.signals| ==> g.signals[i].competitor in g.rollups)
  }

  lemma {:induction false} PutMembers(index: seq<(string, Row)>, id: string, row: Row)
    ensures forall p :: p in Put(index, id, row) ==> p in index || p == (id, row)
  {
    if index != [] {
      PutMembers(index[1..], id, row);
    }
  }

  lemma {:induction false} AddRowsAbout(env: Env, g: Graph, rows: seq<Row>, c: string)
    requires AboutRivals(g) && c in g.rollups && forall i :: 0 <= i < |rows| ==> rows[i].competitor == c
    ensures AboutRivals(AddRows(env, g, rows)) && c in AddRows(env, g, rows).rollups
  {
    if rows != [] {
      var n := |rows| - 1;
      AddRowsAbout(env, g, rows[..n], c);
      var g' := AddRows(env, g, rows[..n]);
      if env.textRunId {
        PutMembers(g'.index, env.ids(g'.next), rows[n]);
        var index := Put(g'.index, env.ids(g'.next), rows[n]);
        forall i | 0 <= i < |index| ensures index[i].1.competitor in g'.rollups {
          assert index[i] in index;
        }
      }
    }
  }

  lemma {:induction false} RunAbout(env: Env, events: seq<Event>)
    requires forall i :: 0 <= i < |events| ==> OwnRows(events[i])
    ensures AboutRivals(Run(env, NOTHING, events))
  {
    if events != [] {
      var n := |events| - 1;
      RunAbout(env, events[..n]);
      if events[n].Found? {
        var u := events[n].one;
        AddRowsAbout(env, Change1(Run(env, NOTHING, events[..n]), u.competitor, u.change), u.rows, u.competitor);
      }
    }
  }

  lemma MergedIsAboutRivals(env: Env, x: Inputs)
    ensures AboutRivals(Merged(env, x))
  {
    ScriptOwnRows(env, x);
    RunAbout(env, Script(env, x));
  }

  // ------------------------------------------------------------------ the figures

  /** The confirmed rivals of the report: the keys of the rollups, in some order. */
  ghost predicate Confirms(competitors: seq<string>, g: Graph) {
    Distinct(competitors) && forall c :: c in competitors <==> c in g.rollups
  }

  lemma {:induction false} NeverCounted(counted: seq<Option<string>>)
    requires forall i :: 0 <= i < |counted| ==> counted[i].Some?
    ensures Times(counted, None) == 0
  {
    if counted != [] {
      NeverCounted(counted[..|counted| - 1]);
    }
  }

  lemma {:induction false} NeverEmpty(kinds: seq<string>)
    requires forall i :: 0 <= i < |kinds| ==> kinds[i] != ""
    ensures Times(kinds, "") == 0
  {
    if kinds != [] {
      NeverEmpty(kinds[..|kinds| - 1]);
    }
  }

  /** Every row of the graph is counted for some rival. */
  lemma EveryRowCounts(names: Names, g: Graph, key: Row -> string, age: string -> Option<int>, competitors: seq<string>)
    requires AboutRivals(g) && Confirms(competitors, g) && "" !in g.rollups
    ensures Times(AllCounted(names, EvidenceOf(g.index, key, age), competitors), None) == 0
  {
    var evidence := EvidenceOf(g.index, key, age);
    var counted := AllCounted(names, evidence, competitors);
    forall i | 0 <= i < |counted| ensures counted[i].Some? {
      var c := g.index[i].1.competitor;
      assert c in g.rollups && c != "";
      ConfirmedIsListed(names, competitors, names.lower(c));
    }
    NeverCounted(counted);
  }

  lemma {:induction false} DistinctSize(xs: seq<string>)
    requires Distinct(xs)
    ensures |set x | x in xs| == |xs|
  {
    if xs != [] {
      var n := |xs| - 1;
      DistinctSize(xs[..n]);
      assert xs == xs[..n] + [xs[n]];
      assert (set x | x in xs) == (set x | x in xs[..n]) + {xs[n]};
    }
  }

  /** The rivals with a signal are rivals with a rollup. */
  lemma ComplaintsFit(names: Names, g: Graph, kind: string, competitors: seq<string>)
    requires AboutRivals(g) && Confirms(competitors, g)
    ensures |RivalsWith(names, SignalRows(g.signals), kind, competitors)| <= |competitors|
  {
    var rivals := RivalsWith(names, SignalRows(g.signals), kind, competitors);
    forall r | r in rivals ensures r in competitors {
      var s :| s in SignalRows(g.signals) && s.competitor == r;
      var i :| 0 <= i < |SignalRows(g.signals)| && SignalRows(g.signals)[i] == s;
      assert g.signals[i].competitor == r;
    }
    DistinctSize(competitors);
    SubsetSize(rivals, set c | c in competitors);
  }

  /** What the graph guarantees to the block. */
  lemma GraphFits(env: Env, x: Inputs, names: Names, key: Row -> string, age: string -> Option<int>, competitors: seq<string>)
    requires Confirms(competitors, Merged(env, x)) && "" !in Rivals(x)
    ensures var g := Merged(env, x);
      && Times(AllCounted(names, EvidenceOf(g.index, key, age), competitors), None) == 0
      && Times(SignalKinds(SignalRows(g.signals)), "") == 0
      && |RivalsWith(names, SignalRows(g.signals), "complaint", competitors)| <= |competitors| == |g.rollups|
      && (FoldsApart(names, competitors) ==> forall c :: c in competitors ==>
            Times(AllCounted(names, EvidenceOf(g.index, key, age), competitors), Some(c)) == |IdsFor(g.index, c)|)
  {
    var g := Merged(env, x);
    MergedIsAboutRivals(env, x);
    RollupsAreTheRivals(env, x);
    EveryRowCounts(names, g, key, age, competitors);
    ComplaintsFit(names, g, "complaint", competitors);
    NeverEmpty(SignalKinds(SignalRows(g.signals)));
    DistinctSize(competitors);
    assert (set c | c in competitors) == g.rollups.Keys;
    if FoldsApart(names, competitors) {
      forall c | c in competitors
        ensures Times(AllCounted(names, EvidenceOf(g.index, key, age), competitors), Some(c)) == |IdsFor(g.index, c)|
      {
        RowsOfOne(names, g, key, age, competitors, c);
      }
    }
  }

  /** `_report_stats` on the graph that the merge node built: with non-empty rival names, none of them the index key, the
      donut and the rows of each rival both add up to the evidence, the signals of each type to the signals, no more
      rivals have complaints than were analyzed, and the claims split into corroborated and uncorroborated ones. */
  method ReportStats(env: Env, x: Inputs, names: Names, key: Row -> string, age: string -> Option<int>,
                     competitors: seq<string>, labels: seq<string>, confidences: seq<real>, round: real -> real)
    returns (b: Block, g: Graph)
    requires IsRounding(round)
    requires Confirms(competitors, Merged(env, x)) && "" !in Rivals(x) && INDEX_KEY !in Rivals(x)
    ensures g == Merged(env, x)
    ensures b.evidenceCount == |g.index| && b.competitorsAnalyzed == |competitors| == |g.rollups|
    ensures Sum(b.breakdown) == b.evidenceCount
    ensures Sum(b.perCompetitor) == b.evidenceCount && forall c :: c in b.perCompetitor <==> c in competitors
    ensures FoldsApart(names, competitors) ==> forall c :: c in competitors ==> b.perCompetitor[c] == |IdsFor(g.index, c)|
    ensures Sum(b.byType) == |g.signals|
    ensures b.withComplaints <= b.competitorsAnalyzed
    ensures b.rate.None? <==> Claims(EvidenceOf(g.index, key, age)) == {}
    ensures |CorroboratedClaims(EvidenceOf(g.index, key, age))| + b.uncorroborated == |Claims(EvidenceOf(g.index, key, age))|
  {
    var node := new MergeNode(env);
    var _, _, _, _ := node.Merge(x);
    g := node.Value();
    b := ComputeStats(names, EvidenceOf(g.index, key, age), SignalRows(g.signals), competitors, labels, confidences, round);
    GraphFits(env, x, names, key, age, competitors);
  }

  /** No two confirmed names differ in letter case only. */
  ghost predicate FoldsApart(names: Names, competitors: seq<string>) {
    forall c, d :: c in competitors && d in competitors && names.lower(c) == names.lower(d) ==> c == d
  }

  lemma {:induction false} RowsCounted(index: seq<(string, Row)>, counted: seq<Option<string>>, c: string)
    requires |counted| == |index|
    requires forall i :: 0 <= i < |index| ==> counted[i] == Some(index[i].1.competitor)
    ensures Times(counted, Some(c)) == |IdsFor(index, c)|
  {
    if index != [] {
      var n := |index| - 1;
      RowsCounted(index[..n], counted[..n], c);
    }
  }

  /** Then the figure of a rival is the number of ids that its rollup cites. */
  lemma RowsOfOne(names: Names, g: Graph, key: Row -> string, age: string -> Option<int>, competitors: seq<string>, c: string)
    requires AboutRivals(g) && Confirms(competitors, g) && "" !in g.rollups && FoldsApart(names, competitors)
    ensures Times(AllCounted(names, EvidenceOf(g.index, key, age), competitors), Some(c)) == |IdsFor(g.index, c)|
  {
    var counted := AllCounted(names, EvidenceOf(g.index, key, age), competitors);
    forall i | 0 <= i < |g.index| ensures counted[i] == Some(g.index[i].1.competitor) {
      var d := g.index[i].1.competitor;
      assert d in g.rollups && d in competitors && d != "";
      ConfirmedIsListed(names, competitors, names.lower(d));
    }
    RowsCounted(g.index, counted, c);
  }

  // ------------------------------------------------------------------ outside the graph

  /** Whoever answers to a confirmed name in some letter case is confirmed. */
  ghost predicate FoldsClosed(names: Names, competitors: seq<string>) {
    forall v, c :: v != "" && c in competitors && names.lower(v) == names.lower(c) ==> v in competitors
  }

  /** One signal for each name. */
  function SignalsOf(rivals: seq<string>, kind: string): seq<SignalRow> {
    seq(|rivals|, i requires 0 <= i < |rivals| => SignalRow(rivals[i], kind))
  }

  /** The name folds to that of a confirmed rival. */
  ghost predicate IsConfirmed(names: Names, r: string, competitors: seq<string>) {
    exists c :: c in competitors && names.lower(r) == names.lower(c)
  }

  lemma RivalsOfSignals(names: Names, rivals: seq<string>, kind: string, competitors: seq<string>)
    requires forall r :: r in rivals ==> r != "" && IsConfirmed(names, r, competitors)
    ensures RivalsWith(names, SignalsOf(rivals, kind), kind, competitors) == set r | r in rivals
  {
    var signals := SignalsOf(rivals, kind);
    forall r | r in rivals ensures r in RivalsWith(names, signals, kind, competitors) {
      var i :| 0 <= i < |rivals| && rivals[i] == r;
      assert signals[i] == SignalRow(r, kind) && signals[i] in signals;
    }
  }

  lemma ComplaintsFitIfClosed(names: Names, signals: seq<SignalRow>, kind: string, competitors: seq<string>)
    requires FoldsClosed(names, competitors)
    ensures |RivalsWith(names, signals, kind, competitors)| <= |competitors|
  {
    var rivals := RivalsWith(names, signals, kind, competitors);
    forall r | r in rivals ensures r in competitors {
      assert r != "" && names.lower(r) in set c | c in competitors :: names.lower(c);
    }
    SubsetSize(rivals, set c | c in competitors);
    SetSize(competitors);
  }

  lemma {:induction false} SetSize(xs: seq<string>)
    ensures |set x | x in xs| <= |xs|
  {
    if xs != [] {
      var n := |xs| - 1;
      SetSize(xs[..n]);
      assert xs == xs[..n] + [xs[n]];
      assert (set x | x in xs) == (set x | x in xs[..n]) + {xs[n]};
    }
  }

  /** One more name in another letter case, with a signal each: the count exceeds the confirmed rivals by one. */
  lemma ComplaintsExceed(names: Names, kind: string, competitors: seq<string>, v: string, c: string)
    requires Distinct(competitors) && "" !in competitors
    requires v != "" && v !in competitors && c in competitors && names.lower(v) == names.lower(c)
    ensures |RivalsWith(names, SignalsOf(competitors + [v], kind), kind, competitors)| == |competitors| + 1
  {
    var rivals := competitors + [v];
    forall r | r in rivals ensures r != "" && IsConfirmed(names, r, competitors) {
      assert names.lower(r) == names.lower(if r == v then c else r);
    }
    RivalsOfSignals(names, rivals, kind, competitors);
    DistinctSize(rivals);
  }

  /** For distinct, non-empty confirmed names: the rivals with a signal never outnumber them, whatever the signals, if and
      only if every name that differs from a confirmed one in letter case only is itself confirmed. */
  lemma ComplaintsFitIff(names: Names, kind: string, competitors: seq<string>)
    requires Distinct(competitors) && "" !in competitors
    ensures (forall signals :: |RivalsWith(names, signals, kind, competitors)| <= |competitors|)
       <==> FoldsClosed(names, competitors)
  {
    if FoldsClosed(names, competitors) {
      forall signals ensures |RivalsWith(names, signals, kind, competitors)| <= |competitors| {
        ComplaintsFitIfClosed(names, signals, kind, competitors);
      }
    } else {
      var v, c :| v != "" && c in competitors && names.lower(v) == names.lower(c) && v !in competitors;
      ComplaintsExceed(names, kind, competitors, v, c);
    }
  }
}
