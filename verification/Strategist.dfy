/** The strategist's post-pass (app/agents/strategist.py): code owns the citations and the numbers. Cited ids are
    resolved against the evidence index, and each confidence is recomputed from what survives. */
module Strategist {
  import opened Wrappers
  import opened Text
  import opened Confidence

  datatype Meta = Meta(agent: string, competitor: string, kind: string, url: string)

  type Index = map<string, Meta>

  // ------------------------------------------------------------------ resolving a cited id

  function LowerChar(c: char): char {
    if 'A' <= c <= 'Z' then c + 32 as char else c
  }

  function Lower(s: string): string {
    seq(|s|, i requires 0 <= i < |s| => LowerChar(s[i]))
  }

  predicate IsHex(c: char) {
    '0' <= c <= '9' || 'a' <= c <= 'f'
  }

  /** The pattern of an evidence id: `ev-` and eight hexadecimal digits. */
  predicate IsToken(t: string) {
    |t| == 11 && t[0] == 'e' && t[1] == 'v' && t[2] == '-' && forall i :: 3 <= i < 11 ==> IsHex(t[i])
  }

  predicate TokenAt(s: string, i: int) {
    0 <= i <= |s| - 11 && IsToken(s[i..i + 11])
  }

  /** The leftmost token at or after `i`. */
  function Search(s: string, i: nat): (r: Option<nat>)
    ensures r.Some? ==> i <= r.value && TokenAt(s, r.value) && forall j :: i <= j < r.value ==> !TokenAt(s, j)
    ensures r.None? ==> forall j :: i <= j ==> !TokenAt(s, j)
    decreases |s| - i
  {
    if i + 11 > |s| then None
    else if TokenAt(s, i) then Some(i)
    else Search(s, i + 1)
  }

  /** `_normalize_evidence_id`: never invents an id. */
  function Normalize(raw: string, index: Index): (r: Option<string>)
    ensures r.Some? ==> r.value in index
    ensures r.Some? && r.value != raw ==> IsToken(r.value) && exists i :: OccursAt(Lower(Strip(raw)), r.value, i)
    ensures raw in index ==> r == Some(raw)
  {
    if raw in index then Some(raw)
    else
      var text := Lower(Strip(raw));
      match Search(text, 0)
      case None => None
      case Some(i) =>
        var token := text[i..i + 11];
        assert OccursAt(text, token, i);
        if token in index then Some(token) else None
  }

  /** What one cited string adds to the known ids. */
  function Accept(known: seq<string>, raw: string, index: Index): seq<string> {
    match Normalize(raw, index)
    case None => known
    case Some(id) => if id != "" && id !in known then known + [id] else known
  }

  function Known(raws: seq<string>, index: Index): seq<string> {
    if raws == [] then [] else Accept(Known(raws[..|raws| - 1], index), raws[|raws| - 1], index)
  }

  /** Only real ids survive, each once. */
  lemma {:induction false} KnownIsReal(raws: seq<string>, index: Index)
    ensures Distinct(Known(raws, index))
    ensures forall id :: id in Known(raws, index) ==> id in index && id != ""
  {
    if raws != [] {
      KnownIsReal(raws[..|raws| - 1], index);
    }
  }

  /** Every id that survives was cited: as it is, or inside a cited string once that is stripped and lowered. */
  lemma {:induction false} KnownWasCited(raws: seq<string>, index: Index, id: string)
    requires id in Known(raws, index)
    ensures exists i :: 0 <= i < |raws| && Normalize(raws[i], index) == Some(id)
  {
    var n := |raws| - 1;
    if id in Known(raws[..n], index) {
      KnownWasCited(raws[..n], index, id);
      var i :| 0 <= i < n && Normalize(raws[..n][i], index) == Some(id);
      assert raws[i] == raws[..n][i];
    }
  }

  /** No real citation is lost. */
  lemma {:induction false} RealIsKept(raws: seq<string>, index: Index, i: nat)
    requires i < |raws| && Normalize(raws[i], index).Some? && Normalize(raws[i], index).value != ""
    ensures Normalize(raws[i], index).value in Known(raws, index)
  {
    var n := |raws| - 1;
    if i < n {
      assert raws[..n][i] == raws[i];
      RealIsKept(raws[..n], index, i);
    }
  }

  /** Distinct real ids pass unchanged. */
  lemma {:induction false} RealPasses(ids: seq<string>, index: Index)
    requires Distinct(ids) && forall id :: id in ids ==> id in index && id != ""
    ensures Known(ids, index) == ids
  {
    if ids != [] {
      var init, last := ids[..|ids| - 1], ids[|ids| - 1];
      assert ids == init + [last];
      assert last !in init && last in ids && forall id :: id in init ==> id in ids;
      RealPasses(init, index);
    }
  }

  /** Cleaning twice is cleaning once. */
  lemma CleaningTwice(raws: seq<string>, index: Index)
    ensures Known(Known(raws, index), index) == Known(raws, index)
  {
    KnownIsReal(raws, index);
    RealPasses(Known(raws, index), index);
  }

  lemma {:induction false} LStripBefore(pre: string, s: string)
    requires s != "" && !IsSpace(s[0])
    ensures LStrip(pre + s) == LStrip(pre) + s
  {
    if pre == "" {
      assert pre + s == s;
    } else {
      assert (pre + s)[1..] == pre[1..] + s;
      LStripBefore(pre[1..], s);
    }
  }

  lemma {:induction false} RStripAfter(s: string, post: string)
    requires s != "" && !IsSpace(s[|s| - 1])
    ensures RStrip(s + post) == s + RStrip(post)
  {
    if post == "" {
      assert s + post == s;
    } else {
      assert (s + post)[..|s + post| - 1] == s + post[..|post| - 1];
      RStripAfter(s, post[..|post| - 1]);
    }
  }

  lemma {:induction false} LStripChars(s: string)
    ensures forall c :: c in LStrip(s) ==> c in s
  {
    if s != "" {
      LStripChars(s[1..]);
    }
  }

  lemma LowerToken(id: string, noisy: string)
    requires IsToken(id) && Lower(noisy) == id
    ensures !IsSpace(noisy[0]) && !IsSpace(noisy[|noisy| - 1])
  {
    assert LowerChar(noisy[0]) == id[0] == 'e';
    assert |noisy| == |id| && LowerChar(noisy[|noisy| - 1]) == id[10] && IsHex(id[10]);
  }

  /** A real id wrapped in noise is recovered: any letter case, and any quotes, punctuation or white space around it, as
      long as no letter e comes before. */
  lemma NoiseIsRemoved(pre: string, noisy: string, post: string, id: string, index: Index)
    requires IsToken(id) && Lower(noisy) == id && id in index
    requires pre + noisy + post !in index && forall c :: c in pre ==> LowerChar(c) != 'e'
    ensures Normalize(pre + noisy + post, index) == Some(id)
  {
    var raw := pre + noisy + post;
    var left := LStrip(pre);
    LowerToken(id, noisy);
    assert raw == pre + (noisy + post);
    LStripBefore(pre, noisy + post);
    assert LStrip(raw) == left + noisy + post;
    assert (left + noisy)[|left + noisy| - 1] == noisy[|noisy| - 1];
    RStripAfter(left + noisy, post);
    var text := Lower(Strip(raw));
    assert Strip(raw) == left + noisy + RStrip(post);
    LStripChars(pre);
    assert text[|left|..|left| + 11] == Lower(noisy);
    assert TokenAt(text, |left|);
    forall j | 0 <= j < |left| ensures !TokenAt(text, j) {
      assert text[j] == LowerChar(left[j]) && left[j] in pre;
      if j <= |text| - 11 {
        assert text[j..j + 11][0] == text[j];
      }
    }
  }

  // ------------------------------------------------------------------ recomputing the number

  function CitedRows(ids: seq<string>, index: Index): seq<Meta> {
    if ids == [] then []
    else
      var id := ids[|ids| - 1];
      CitedRows(ids[..|ids| - 1], index) + (if id in index then [index[id]] else [])
  }

  function Urls(rows: seq<Meta>): set<string> {
    set m | m in rows && m.url != "" :: m.url
  }

  function Sources(rows: seq<Meta>): nat {
    if |Urls(rows)| != 0 then |Urls(rows)| else |rows|
  }

  function AgentNames(rows: seq<Meta>): set<string> {
    set m | m in rows :: m.agent
  }

  function Agents(rows: seq<Meta>): nat {
    |AgentNames(rows)|
  }

  /** The size of the cluster of one rival and one kind of evidence. */
  function Cluster(rows: seq<Meta>, competitor: string, kind: string): nat {
    if rows == [] then 0
    else
      var last := rows[|rows| - 1];
      Cluster(rows[..|rows| - 1], competitor, kind) + (if last.competitor == competitor && last.kind == kind then 1 else 0)
  }

  function Largest(all: seq<Meta>, some: seq<Meta>): nat {
    if some == [] then 0
    else
      var last := some[|some| - 1];
      var here := Cluster(all, last.competitor, last.kind);
      var before := Largest(all, some[..|some| - 1]);
      if here > before then here else before
  }

  function Agreeing(rows: seq<Meta>): nat {
    Largest(rows, rows)
  }

  function Worth(rows: seq<Meta>, round: real -> real): real {
    Score(round, Sources(rows), Agreeing(rows), Agents(rows))
  }

  /** `_recompute`. */
  function Recompute(ids: seq<string>, index: Index, round: real -> real): real {
    Worth(CitedRows(ids, index), round)
  }

  // ------------------------------------------------------------------ the post-pass

  /** A recommendation or opportunity of the draft; an opportunity has no confidence. */
  class Draft {
    var evidenceIds: seq<string>
    var confidence: Option<real>

    constructor (ids: seq<string>, confidence: Option<real>)
      ensures evidenceIds == ids && this.confidence == confidence
    {
      evidenceIds := ids;
      this.confidence := confidence;
    }
  }

  /** The id loop of `_clean_cited`. */
  method CleanIds(raws: seq<string>, index: Index) returns (known: seq<string>)
    ensures known == Known(raws, index)
  {
    known := [];
    for i := 0 to |raws|
      invariant known == Known(raws[..i], index)
    {
      assert raws[..i + 1][..i] == raws[..i];
      var norm := Normalize(raws[i], index);
      if norm.Some? && norm.value != "" && norm.value !in known {
        known := known + [norm.value];
      }
    }
    assert raws[..|raws|] == raws;
  }

  /** `_clean_cited`: every item is kept, with its citations cleaned and its confidence, if it has one, recomputed. The
      list may hold one object twice. */
  method CleanCited(items: seq<Draft>, index: Index, round: real -> real) returns (kept: seq<Draft>)
    modifies items
    ensures kept == items
    ensures forall it :: it in items ==>
      && it.evidenceIds == Known(old(it.evidenceIds), index)
      && it.confidence == (if old(it.confidence).Some? then Some(Recompute(it.evidenceIds, index, round)) else None)
  {
    kept := [];
    for i := 0 to |items|
      invariant kept == items[..i]
      invariant forall it :: it in items ==> it.confidence.Some? == old(it.confidence).Some?
      invariant forall it :: it in items && it !in items[..i] ==>
        it.evidenceIds == old(it.evidenceIds) && it.confidence == old(it.confidence)
      invariant forall it :: it in items[..i] ==>
        && it.evidenceIds == Known(old(it.evidenceIds), index)
        && (it.confidence.Some? ==> it.confidence.value == Recompute(it.evidenceIds, index, round))
    {
      var it := items[i];
      assert items[..i + 1] == items[..i] + [it];
      CleaningTwice(old(it.evidenceIds), index);
      var known := CleanIds(it.evidenceIds, index);
      it.evidenceIds := known;
      if it.confidence.Some? {
        it.confidence := Some(Recompute(known, index, round));
      }
      kept := kept + [it];
    }
    assert items[..|items|] == items;
  }

  function FirstThree<T>(xs: seq<T>): (r: seq<T>)
    ensures r <= xs && |r| == if |xs| <= 3 then |xs| else 3
  {
    if |xs| <= 3 then xs else xs[..3]
  }

  datatype Recommendation = Recommendation(confidence: real, evidenceIds: seq<string>)

  /** What a recommendation of the report may say, given what the model cited: distinct real ids only, and the number
      that those are worth, in the range that the report model demands. */
  ghost predicate Sound(rec: Recommendation, cited: seq<string>, index: Index, round: real -> real) {
    && rec.evidenceIds == Known(cited, index)
    && Distinct(rec.evidenceIds) && (forall id :: id in rec.evidenceIds ==> id in index)
    && rec.confidence == Recompute(rec.evidenceIds, index, round)
    && FLOOR <= rec.confidence <= CEIL
  }

  lemma KnownIsSound(cited: seq<string>, index: Index, round: real -> real)
    requires IsRounding(round)
    ensures Sound(Recommendation(Recompute(Known(cited, index), index, round), Known(cited, index)), cited, index, round)
  {
    KnownIsReal(cited, index);
    var rows := CitedRows(Known(cited, index), index);
    InRange(round, Sources(rows), Agreeing(rows), Agents(rows));
  }

  method Assemble(recs: seq<Draft>) returns (final: seq<Recommendation>)
    requires forall it :: it in recs ==> it.confidence.Some?
    ensures |final| == |recs|
    ensures forall i :: 0 <= i < |final| ==>
      recs[i].confidence == Some(final[i].confidence) && recs[i].evidenceIds == final[i].evidenceIds
  {
    final := [];
    for i := 0 to |recs|
      invariant |final| == i
      invariant forall k :: 0 <= k < i ==>
        recs[k].confidence == Some(final[k].confidence) && recs[k].evidenceIds == final[k].evidenceIds
    {
      assert recs[i] in recs;
      final := final + [Recommendation(recs[i].confidence.value, recs[i].evidenceIds)];
    }
  }

  /** The recommendations of the report: the first three, each of them sound, so assembling the report never fails on
      them. */
  method Recommendations(drafts: seq<Draft>, index: Index, round: real -> real) returns (final: seq<Recommendation>)
    requires IsRounding(round) && forall it :: it in drafts ==> it.confidence.Some?
    modifies drafts
    ensures |final| == if |drafts| <= 3 then |drafts| else 3
    ensures forall i :: 0 <= i < |final| ==> Sound(final[i], old(drafts[i].evidenceIds), index, round)
  {
    var recs := CleanCited(drafts, index, round);
    recs := FirstThree(recs);
    final := Assemble(recs);
    forall i | 0 <= i < |final| ensures Sound(final[i], old(drafts[i].evidenceIds), index, round) {
      assert recs[i] == drafts[i] && drafts[i] in drafts;
      KnownIsSound(old(drafts[i].evidenceIds), index, round);
    }
  }

  // ------------------------------------------------------------------ what citing more does to the number

  /** What cleaning leaves: distinct ids of the index. */
  ghost predicate Real(ids: seq<string>, index: Index) {
    Distinct(ids) && forall id :: id in ids ==> id in index
  }

  /** Distinct real ids, each with a URL. */
  ghost predicate Citable(ids: seq<string>, index: Index) {
    Real(ids, index) && forall id :: id in ids ==> index[id].url != ""
  }

  ghost predicate DistinctUrls(ids: seq<string>, index: Index)
    requires Citable(ids, index)
  {
    forall i, j :: 0 <= i < j < |ids| ==> index[ids[i]].url != index[ids[j]].url
  }

  lemma {:induction false} RowsInOrder(ids: seq<string>, index: Index)
    requires forall id :: id in ids ==> id in index
    ensures |CitedRows(ids, index)| == |ids|
    ensures forall i :: 0 <= i < |ids| ==> CitedRows(ids, index)[i] == index[ids[i]]
  {
    if ids != [] {
      var n := |ids| - 1;
      assert forall id :: id in ids[..n] ==> id in ids;
      RowsInOrder(ids[..n], index);
    }
  }

  lemma RowsOfIds(ids: seq<string>, index: Index)
    requires forall id :: id in ids ==> id in index
    ensures |CitedRows(ids, index)| == |ids|
    ensures forall i :: 0 <= i < |ids| ==> CitedRows(ids, index)[i] == index[ids[i]]
    ensures forall m :: m in CitedRows(ids, index) <==> exists id :: id in ids && index[id] == m
  {
    RowsInOrder(ids, index);
    var rows := CitedRows(ids, index);
    forall m | m in rows ensures exists id :: id in ids && index[id] == m {
      var i :| 0 <= i < |rows| && rows[i] == m;
      assert ids[i] in ids;
    }
    forall id | id in ids ensures index[id] in rows {
      var i :| 0 <= i < |ids| && ids[i] == id;
      assert rows[i] == index[id];
    }
  }

  /** The cited ids of one cluster. */
  function Members(ids: seq<string>, index: Index, competitor: string, kind: string): set<string> {
    set id | id in ids && id in index && index[id].competitor == competitor && index[id].kind == kind
  }

  lemma ClusterSnoc(rows: seq<Meta>, m: Meta, competitor: string, kind: string)
    ensures Cluster(rows + [m], competitor, kind)
         == Cluster(rows, competitor, kind) + if m.competitor == competitor && m.kind == kind then 1 else 0
  {
    assert (rows + [m])[..|rows|] == rows;
  }

  lemma MembersSnoc(ids: seq<string>, id: string, index: Index, competitor: string, kind: string)
    requires id in index && id !in ids
    ensures |Members(ids + [id], index, competitor, kind)|
         == |Members(ids, index, competitor, kind)| +
            if index[id].competitor == competitor && index[id].kind == kind then 1 else 0
  {
    var before := Members(ids, index, competitor, kind);
    assert Members(ids + [id], index, competitor, kind)
        == before + if index[id].competitor == competitor && index[id].kind == kind then {id} else {};
  }

  lemma {:induction false} ClusterIsMembers(ids: seq<string>, index: Index, competitor: string, kind: string)
    requires Distinct(ids) && forall id :: id in ids ==> id in index
    ensures Cluster(CitedRows(ids, index), competitor, kind) == |Members(ids, index, competitor, kind)|
  {
    if ids != [] {
      var n := |ids| - 1;
      assert ids == ids[..n] + [ids[n]];
      assert forall id :: id in ids[..n] ==> id in ids;
      ClusterIsMembers(ids[..n], index, competitor, kind);
      ClusterSnoc(CitedRows(ids[..n], index), index[ids[n]], competitor, kind);
      MembersSnoc(ids[..n], ids[n], index, competitor, kind);
    }
  }

  /** The largest cluster is at least every cluster, and one of them. */
  lemma {:induction false} LargestIsMax(all: seq<Meta>, some: seq<Meta>)
    ensures forall m :: m in some ==> Cluster(all, m.competitor, m.kind) <= Largest(all, some)
    ensures some != [] ==> exists m :: m in some && Cluster(all, m.competitor, m.kind) == Largest(all, some)
  {
    if some != [] {
      var n := |some| - 1;
      LargestIsMax(all, some[..n]);
      assert some == some[..n] + [some[n]];
      if Cluster(all, some[n].competitor, some[n].kind) == Largest(all, some) {
        assert some[n] in some;
      } else {
        var m :| m in some[..n] && Cluster(all, m.competitor, m.kind) == Largest(all, some[..n]);
        assert m in some;
      }
    }
  }

  lemma {:induction false} ClusterSize(rows: seq<Meta>, competitor: string, kind: string)
    ensures Cluster(rows, competitor, kind) <= |rows|
    ensures (exists m :: m in rows && m.competitor == competitor && m.kind == kind) ==> Cluster(rows, competitor, kind) >= 1
  {
    if rows != [] {
      ClusterSize(rows[..|rows| - 1], competitor, kind);
      assert rows == rows[..|rows| - 1] + [rows[|rows| - 1]];
    }
  }

  /** With something cited, all three counts are at least one, and no cluster exceeds the rows. */
  lemma CountsArePositive(rows: seq<Meta>)
    requires rows != []
    ensures Sources(rows) >= 1 && 1 <= Agreeing(rows) <= |rows| && Agents(rows) >= 1
  {
    LargestIsMax(rows, rows);
    var m :| m in rows && Cluster(rows, m.competitor, m.kind) == Agreeing(rows);
    ClusterSize(rows, m.competitor, m.kind);
    assert m.agent in AgentNames(rows);
  }

  /** Citing a superset never lowers the agreement or the agents, nor the URLs. */
  lemma CountsGrow(ids: seq<string>, more: seq<string>, index: Index)
    requires ids != [] && Real(ids, index) && Real(more, index) && forall id :: id in ids ==> id in more
    ensures var rows, rows' := CitedRows(ids, index), CitedRows(more, index);
      |Urls(rows)| <= |Urls(rows')| && Agreeing(rows) <= Agreeing(rows') && Agents(rows) <= Agents(rows')
  {
    var rows, rows' := CitedRows(ids, index), CitedRows(more, index);
    RowsOfIds(ids, index);
    RowsOfIds(more, index);
    forall m | m in rows ensures m in rows' {
    }
    SubsetSize(Urls(rows), Urls(rows'));
    SubsetSize(AgentNames(rows), AgentNames(rows'));
    LargestIsMax(rows, rows);
    LargestIsMax(rows', rows');
    var m :| m in rows && Cluster(rows, m.competitor, m.kind) == Agreeing(rows);
    ClusterIsMembers(ids, index, m.competitor, m.kind);
    ClusterIsMembers(more, index, m.competitor, m.kind);
    SubsetSize(Members(ids, index, m.competitor, m.kind), Members(more, index, m.competitor, m.kind));
  }

  lemma {:induction false} DistinctUrlsCount(ids: seq<string>, index: Index)
    requires Citable(ids, index) && DistinctUrls(ids, index)
    ensures |Urls(CitedRows(ids, index))| == |ids|
  {
    if ids != [] {
      var n := |ids| - 1;
      assert ids == ids[..n] + [ids[n]];
      DistinctUrlsCount(ids[..n], index);
      RowsOfIds(ids[..n], index);
      RowsOfIds(ids, index);
      assert Urls(CitedRows(ids, index)) == Urls(CitedRows(ids[..n], index)) + {index[ids[n]].url};
      assert index[ids[n]].url !in Urls(CitedRows(ids[..n], index));
    }
  }

  /** The number of uncited work, of the first citation and of the fifth: for cited rows with distinct URLs it is exactly
      0.25 with none, at least 0.62 with one or more, and exactly 0.95 from five on. */
  lemma DistinctSourcesScore(ids: seq<string>, index: Index, round: real -> real)
    requires IsRounding(round) && Citable(ids, index) && DistinctUrls(ids, index)
    ensures ids == [] ==> Recompute(ids, index, round) == 0.25
    ensures ids != [] ==> Recompute(ids, index, round) >= 0.62
    ensures |ids| >= 5 ==> Recompute(ids, index, round) == 0.95
  {
    var rows := CitedRows(ids, index);
    RowsOfIds(ids, index);
    if ids == [] {
      assert AgentNames(rows) == {};
      assert Urls(rows) == {};
    } else {
      DistinctUrlsCount(ids, index);
      CountsArePositive(rows);
    }
    Milestones(round, Sources(rows), Agreeing(rows), Agents(rows));
  }

  /** Rows whose number more citations may lower: if some row names its URL, the rows share one, and two to four of them
      form a cluster with few enough agents; if none does, they are counted one by one and there are enough of them. */
  predicate Falls(rows: seq<Meta>) {
    if Urls(rows) != {} then Inflated(|Urls(rows)|, Agreeing(rows), Agents(rows))
    else Collapses(|rows|, Agreeing(rows), Agents(rows))
  }

  lemma MoreIsWorthMore(rows: seq<Meta>, rows': seq<Meta>, round: real -> real)
    requires IsRounding(round) && rows != [] && rows' != [] && !Falls(rows)
    requires |Urls(rows)| <= |Urls(rows')| && Agreeing(rows) <= Agreeing(rows') && Agents(rows) <= Agents(rows')
    ensures Worth(rows, round) <= Worth(rows', round)
  {
    CountsArePositive(rows);
    CountsArePositive(rows');
    var s, a, g, s' := Sources(rows), Agreeing(rows), Agents(rows), Sources(rows');
    if Urls(rows) != {} {
      assert AtLeast(s', Agreeing(rows'), Agents(rows'), s, a, g);
      FallsIffInflated(round, s, a, g);
    } else {
      CollapsesIff(round, s, a, g);
      MoreAgreement(round, s', a, g, Agreeing(rows'), Agents(rows'));
    }
  }

  /** Citing a superset never lowers the number, unless the rows cited first are such that it can. */
  lemma CitingMore(ids: seq<string>, more: seq<string>, index: Index, round: real -> real)
    requires IsRounding(round) && Real(ids, index) && Real(more, index) && forall id :: id in ids ==> id in more
    requires !Falls(CitedRows(ids, index))
    ensures Recompute(ids, index, round) <= Recompute(more, index, round)
  {
    var rows, rows' := CitedRows(ids, index), CitedRows(more, index);
    if ids == [] {
      assert Citable(ids, index) && DistinctUrls(ids, index);
      DistinctSourcesScore(ids, index, round);
      AtLeastQuarter(round, Sources(rows'), Agreeing(rows'), Agents(rows'));
    } else {
      RowsOfIds(ids, index);
      RowsOfIds(more, index);
      assert ids[0] in more;
      CountsGrow(ids, more, index);
      MoreIsWorthMore(rows, rows', round);
    }
  }

  lemma AtLeastQuarter(round: real -> real, s: nat, a: nat, g: nat)
    requires IsRounding(round)
    ensures Score(round, s, a, g) >= 0.25
  {
    if s > 0 {
      Share(a, s);
    }
    RoundBetween(round, Clamped(Raw(s, a, g)), 25, 95);
  }

  /** In particular when every cited row has a URL of its own, whatever is cited besides. */
  lemma DistinctSourcesNeverLower(ids: seq<string>, more: seq<string>, index: Index, round: real -> real)
    requires IsRounding(round) && Citable(ids, index) && Real(more, index) && forall id :: id in ids ==> id in more
    requires DistinctUrls(ids, index)
    ensures Recompute(ids, index, round) <= Recompute(more, index, round)
  {
    var rows := CitedRows(ids, index);
    RowsOfIds(ids, index);
    DistinctUrlsCount(ids, index);
    if ids != [] {
      CountsArePositive(rows);
    }
    CitingMore(ids, more, index, round);
  }

  // ------------------------------------------------------------------ when citing more lowers the number

  /** The graph grows: what was in the index stays. */
  ghost predicate Extends(index': Index, index: Index) {
    forall id :: id in index ==> id in index' && index'[id] == index[id]
  }

  /** Some superset of the citations, in some larger graph, is worth less. */
  ghost predicate CanFall(ids: seq<string>, index: Index, round: real -> real) {
    exists index': Index, more: seq<string> ::
      && Extends(index', index) && Real(more, index') && (forall id :: id in ids ==> id in more)
      && Recompute(more, index', round) < Recompute(ids, index, round)
  }

  lemma FreshString(taken: set<string>) returns (t: string)
    ensures t !in taken && t != ""
  {
    var m: nat := 0;
    var rest := taken;
    while rest != {}
      invariant rest <= taken && forall s :: s in taken - rest ==> |s| <= m
      decreases |rest|
    {
      var s :| s in rest;
      m := if |s| > m then |s| else m;
      rest := rest - {s};
    }
    assert taken - rest == taken;
    t := seq(m + 1, _ => 'x');
    assert |t| == m + 1;
  }

  lemma {:induction false} SameRows(ids: seq<string>, index: Index, index': Index)
    requires Extends(index', index) && forall id :: id in ids ==> id in index
    ensures CitedRows(ids, index') == CitedRows(ids, index)
  {
    if ids != [] {
      var n := |ids| - 1;
      assert forall id :: id in ids[..n] ==> id in ids;
      assert ids[n] in ids;
      SameRows(ids[..n], index, index');
    }
  }

  lemma {:induction false} ClusterAbsent(rows: seq<Meta>, competitor: string, kind: string)
    requires forall m :: m in rows ==> m.competitor != competitor
    ensures Cluster(rows, competitor, kind) == 0
  {
    if rows != [] {
      assert rows == rows[..|rows| - 1] + [rows[|rows| - 1]];
      ClusterAbsent(rows[..|rows| - 1], competitor, kind);
    }
  }

  lemma {:induction false} LargestKept(rows: seq<Meta>, m: Meta, some: seq<Meta>)
    requires forall r :: r in some ==> r.competitor != m.competitor
    ensures Largest(rows + [m], some) == Largest(rows, some)
  {
    if some != [] {
      var n := |some| - 1;
      assert some == some[..n] + [some[n]];
      LargestKept(rows, m, some[..n]);
      ClusterSnoc(rows, m, some[n].competitor, some[n].kind);
    }
  }

  /** The row adds a URL, and neither an agent nor to any cluster. */
  ghost predicate Adds(m: Meta, rows: seq<Meta>) {
    && m.url != "" && m.url !in Urls(rows) && m.agent in AgentNames(rows)
    && forall r :: r in rows ==> r.competitor != m.competitor
  }

  /** Such a row adds a URL and nothing else. */
  lemma OneMoreSource(rows: seq<Meta>, m: Meta)
    requires rows != [] && Adds(m, rows)
    ensures |Urls(rows + [m])| == |Urls(rows)| + 1
    ensures Agreeing(rows + [m]) == Agreeing(rows) && Agents(rows + [m]) == Agents(rows)
  {
    CountsArePositive(rows);
    assert Urls(rows + [m]) == Urls(rows) + {m.url};
    assert AgentNames(rows + [m]) == AgentNames(rows);
    LargestKept(rows, m, rows);
    ClusterSnoc(rows, m, m.competitor, m.kind);
    ClusterAbsent(rows, m.competitor, m.kind);
    assert (rows + [m])[..|rows|] == rows;
  }

  lemma MoreRows(ids: seq<string>, index: Index, id: string, m: Meta)
    requires Real(ids, index) && id !in index
    ensures Extends(index[id := m], index) && Real(ids + [id], index[id := m])
    ensures CitedRows(ids + [id], index[id := m]) == CitedRows(ids, index) + [m]
  {
    SameRows(ids, index, index[id := m]);
    assert (ids + [id])[..|ids|] == ids;
  }

  lemma FreshRow(rows: seq<Meta>) returns (m: Meta)
    requires rows != []
    ensures Adds(m, rows)
  {
    assert rows[0] in rows;
    var url := FreshString(Urls(rows));
    var rivals := set r | r in rows :: r.competitor;
    var rival := FreshString(rivals);
    assert forall r :: r in rows ==> r.competitor in rivals;
    m := Meta(rows[0].agent, rival, rows[0].kind, url);
  }

  /** Citing one more row that adds a URL and nothing else, in a graph that has it. */
  lemma OneMoreCitation(ids: seq<string>, index: Index) returns (more: seq<string>, index': Index)
    requires ids != [] && Real(ids, index)
    ensures Extends(index', index) && Real(more, index') && more != [] && forall id :: id in ids ==> id in more
    ensures var rows, rows' := CitedRows(ids, index), CitedRows(more, index');
      && |Urls(rows')| == |Urls(rows)| + 1
      && Agreeing(rows') == Agreeing(rows) && Agents(rows') == Agents(rows)
  {
    var rows := CitedRows(ids, index);
    RowsOfIds(ids, index);
    var m := FreshRow(rows);
    var id := FreshString(index.Keys);
    MoreRows(ids, index, id, m);
    OneMoreSource(rows, m);
    more, index' := ids + [id], index[id := m];
  }

  lemma FallWitness(ids: seq<string>, index: Index, index': Index, more: seq<string>, round: real -> real)
    requires Extends(index', index) && Real(more, index') && forall id :: id in ids ==> id in more
    requires Recompute(more, index', round) < Recompute(ids, index, round)
    ensures CanFall(ids, index, round)
  {
  }

  /** One more URL is enough for inflated rows. */
  lemma InflatedCanFall(ids: seq<string>, index: Index, round: real -> real)
    requires IsRounding(round) && ids != [] && Real(ids, index)
    requires Urls(CitedRows(ids, index)) != {} && Falls(CitedRows(ids, index))
    ensures CanFall(ids, index, round)
  {
    var rows := CitedRows(ids, index);
    RowsOfIds(ids, index);
    CountsArePositive(rows);
    var more, index' := OneMoreCitation(ids, index);
    InflatedFalls(round, Agreeing(rows), Agents(rows));
    FallWitness(ids, index, index', more, round);
  }

  lemma {:induction false} MoreCitations(ids: seq<string>, index: Index, k: nat) returns (more: seq<string>, index': Index)
    requires ids != [] && Real(ids, index)
    ensures Extends(index', index) && Real(more, index') && more != [] && forall id :: id in ids ==> id in more
    ensures var rows, rows' := CitedRows(ids, index), CitedRows(more, index');
      && |Urls(rows')| == |Urls(rows)| + k
      && Agreeing(rows') == Agreeing(rows) && Agents(rows') == Agents(rows)
  {
    if k == 0 {
      more, index' := ids, index;
    } else {
      var ids1, index1 := MoreCitations(ids, index, k - 1);
      more, index' := OneMoreCitation(ids1, index1);
    }
  }

  /** Rows with `s` URLs, as much agreement and as many agents are worth less. */
  ghost predicate LosesAt(rows: seq<Meta>, s: nat, round: real -> real) {
    forall rows' {:trigger Worth(rows', round)} ::
      |Urls(rows')| == s && Agreeing(rows') == Agreeing(rows) && Agents(rows') == Agents(rows) ==>
      Worth(rows', round) < Worth(rows, round)
  }

  lemma CollapsingRows(rows: seq<Meta>, round: real -> real) returns (s: nat)
    requires IsRounding(round) && rows != [] && Urls(rows) == {} && Falls(rows)
    ensures LosesAt(rows, s, round)
  {
    CountsArePositive(rows);
    s := CollapseFalls(round, |rows|, Agreeing(rows), Agents(rows));
  }

  lemma LossIsAFall(ids: seq<string>, index: Index, index': Index, more: seq<string>, s: nat, round: real -> real)
    requires LosesAt(CitedRows(ids, index), s, round)
    requires Extends(index', index) && Real(more, index') && forall id :: id in ids ==> id in more
    requires var rows, rows' := CitedRows(ids, index), CitedRows(more, index');
      |Urls(rows')| == s && Agreeing(rows') == Agreeing(rows) && Agents(rows') == Agents(rows)
    ensures CanFall(ids, index, round)
  {
    assert Recompute(more, index', round) == Worth(CitedRows(more, index'), round);
  }

  /** One or two URLs are enough for rows that have none. */
  lemma CollapsingCanFall(ids: seq<string>, index: Index, round: real -> real)
    requires IsRounding(round) && ids != [] && Real(ids, index)
    requires Urls(CitedRows(ids, index)) == {} && Falls(CitedRows(ids, index))
    ensures CanFall(ids, index, round)
  {
    RowsOfIds(ids, index);
    var s := CollapsingRows(CitedRows(ids, index), round);
    var more, index' := MoreCitations(ids, index, s);
    LossIsAFall(ids, index, index', more, s, round);
  }

  /** Citing more can lower the number of cited rows if and only if these fall: with n rows, u distinct URLs among them, a
      largest cluster of a and g agents, if and only if u > 0 and `Inflated(u, a, g)`, or u = 0 and `Collapses(n, a, g)`. */
  lemma CanFallIff(ids: seq<string>, index: Index, round: real -> real)
    requires IsRounding(round) && Real(ids, index)
    ensures CanFall(ids, index, round) <==> Falls(CitedRows(ids, index))
  {
    var rows := CitedRows(ids, index);
    if Falls(rows) {
      RowsOfIds(ids, index);
      if Urls(rows) != {} {
        InflatedCanFall(ids, index, round);
      } else {
        CollapsingCanFall(ids, index, round);
      }
    } else {
      forall index': Index, more: seq<string> |
        Extends(index', index) && Real(more, index') && forall id :: id in ids ==> id in more
        ensures Recompute(ids, index, round) <= Recompute(more, index', round)
      {
        SameRows(ids, index, index');
        CitingMore(ids, more, index', round);
      }
    }
  }

  lemma UrllessCounts(a: Meta, b: Meta, c: Meta, d: Meta)
    requires a.url == b.url == c.url == "" && d.url != "" && a.agent == b.agent == c.agent == d.agent
    requires |{a.competitor, b.competitor, c.competitor, d.competitor}| == 4
    ensures Sources([a, b, c]) == 3 && Agreeing([a, b, c]) == 1 && Agents([a, b, c]) == 1
    ensures Sources([a, b, c, d]) == 1 && Agreeing([a, b, c, d]) == 1 && Agents([a, b, c, d]) == 1
  {
    assert Urls([a, b, c]) == {} && Urls([a, b, c, d]) == {d.url};
    assert AgentNames([a, b, c]) == {a.agent} && AgentNames([a, b, c, d]) == {a.agent};
    AllApart([a, b, c]);
    AllApart([a, b, c, d]);
  }

  /** Three rows without URLs count as three sources; one more row, with a URL, leaves a single source, so the number
      falls from at least 0.76 to at most 0.62. */
  lemma MissingUrlsCanFall(index: Index, a: string, b: string, c: string, d: string, round: real -> real)
    requires IsRounding(round) && {a, b, c, d} <= index.Keys
    requires index[a].url == index[b].url == index[c].url == "" && index[d].url != ""
    requires index[a].agent == index[b].agent == index[c].agent == index[d].agent
    requires |{index[a].competitor, index[b].competitor, index[c].competitor, index[d].competitor}| == 4
    ensures Recompute([a, b, c], index, round) >= 0.76
    ensures Recompute([a, b, c, d], index, round) <= 0.62
  {
    RowsOfIds([a, b, c], index);
    RowsOfIds([a, b, c, d], index);
    assert CitedRows([a, b, c], index) == [index[a], index[b], index[c]];
    assert CitedRows([a, b, c, d], index) == [index[a], index[b], index[c], index[d]];
    UrllessCounts(index[a], index[b], index[c], index[d]);
    Linear(3, 1, 1);
    Linear(1, 1, 1);
    RoundBetween(round, Clamped(Raw(3, 1, 1)), 76, 95);
    RoundBetween(round, Clamped(Raw(1, 1, 1)), 5, 62);
  }

  /** Rows about different rivals form clusters of one. */
  lemma AllApart(rows: seq<Meta>)
    requires rows != [] && forall i, j :: 0 <= i < j < |rows| ==> rows[i].competitor != rows[j].competitor
    ensures Agreeing(rows) == 1
  {
    CountsArePositive(rows);
    LargestIsMax(rows, rows);
    var m :| m in rows && Cluster(rows, m.competitor, m.kind) == Agreeing(rows);
    ClusterApart(rows, m.competitor, m.kind);
  }

  lemma {:induction false} ClusterApart(rows: seq<Meta>, competitor: string, kind: string)
    requires forall i, j :: 0 <= i < j < |rows| ==> rows[i].competitor != rows[j].competitor
    ensures Cluster(rows, competitor, kind) <= 1
  {
    if rows != [] {
      var n := |rows| - 1;
      ClusterApart(rows[..n], competitor, kind);
      if rows[n].competitor == competitor {
        ClusterAbsent(rows[..n], competitor, kind);
      }
    }
  }
}
