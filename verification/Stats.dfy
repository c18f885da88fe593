/** The numbers block (app/core/stats.py): every figure is a count over rows that exist, so the figures must add up. */
module Stats {
  import opened Wrappers
  import opened Confidence

  /** An evidence row as the block reads it; `source` is its source key (the domain of its URL, else its name), and `age`
      the days since its date, if that parses. */
  datatype Evidence = Evidence(competitor: string, kind: string, claimRef: string, source: string, age: Option<int>)

  datatype SignalRow = SignalRow(competitor: string, kind: string)

  /** The case folding and the slug of names are parameters. */
  datatype Names = Names(lower: string -> string, slug: string -> string)

  const CANONICAL := ["news", "pricing", "review", "web", "document"]

  datatype Block = Block(evidenceCount: nat, competitorsAnalyzed: nat, perCompetitor: map<string, nat>,
                         breakdown: map<string, nat>, byType: map<string, nat>, withComplaints: nat,
                         spread: map<string, nat>, average: Option<real>, freshest: Option<nat>, distinctSources: nat,
                         rate: Option<nat>, uncorroborated: nat)

  // ------------------------------------------------------------------ sums over dicts

  ghost function Sum(m: map<string, nat>): nat {
    if m == map[] then 0
    else
      var k :| k in m;
      m[k] + Sum(m - {k})
  }

  lemma {:induction false} SumSplit(m: map<string, nat>, k: string)
    requires k in m
    ensures Sum(m) == m[k] + Sum(m - {k})
    decreases |m|
  {
    var k' :| k' in m && Sum(m) == m[k'] + Sum(m - {k'});
    if k' != k {
      SumSplit(m - {k'}, k);
      SumSplit(m - {k}, k');
      assert m - {k'} - {k} == m - {k} - {k'};
    }
  }

  /** One key up by `n`. */
  lemma SumUpdate(m: map<string, nat>, k: string, n: nat)
    ensures Sum(m[k := n]) + (if k in m then m[k] else 0) == Sum(m) + n
  {
    SumSplit(m[k := n], k);
    if k in m {
      SumSplit(m, k);
      assert m[k := n] - {k} == m - {k};
    } else {
      assert m[k := n] - {k} == m;
    }
  }

  lemma {:induction false} SumOfZeros(m: map<string, nat>)
    requires forall k :: k in m ==> m[k] == 0
    ensures Sum(m) == 0
    decreases |m|
  {
    if m != map[] {
      var k :| k in m && Sum(m) == m[k] + Sum(m - {k});
      SumOfZeros(m - {k});
    }
  }

  // ------------------------------------------------------------------ counting

  /** How many of `xs` are equal to `x`. */
  function Times<T(==)>(xs: seq<T>, x: T): nat {
    if xs == [] then 0 else Times(xs[..|xs| - 1], x) + (if xs[|xs| - 1] == x then 1 else 0)
  }

  lemma TimesSnoc<T>(xs: seq<T>, i: nat, x: T)
    requires i < |xs|
    ensures Times(xs[..i + 1], x) == Times(xs[..i], x) + (if xs[i] == x then 1 else 0)
  {
    assert xs[..i + 1][..i] == xs[..i];
  }

  function Kinds(evidence: seq<Evidence>): seq<string> {
    seq(|evidence|, i requires 0 <= i < |evidence| => if evidence[i].kind != "" then evidence[i].kind else "web")
  }

  /** The counting loop over a dict whose keys `start` are seeded with zero. */
  method CountInto(start: seq<string>, values: seq<string>) returns (counts: map<string, nat>)
    ensures forall v :: v in counts <==> v in start || v in values
    ensures forall v :: v in counts ==> counts[v] == Times(values, v)
    ensures Sum(counts) == |values|
  {
    counts := map v | v in start :: 0;
    SumOfZeros(counts);
    for i := 0 to |values|
      invariant forall v :: v in counts <==> v in start || v in values[..i]
      invariant Counts(counts, values[..i]) && Sum(counts) == i
    {
      var v := values[i];
      OneMoreMember(values, i);
      var n := if v in counts then counts[v] else 0;
      Bump(counts, values, i);
      counts := counts[v := n + 1];
    }
    assert values[..|values|] == values;
  }

  lemma OneMoreMember(values: seq<string>, i: nat)
    requires i < |values|
    ensures forall v :: v in values[..i + 1] <==> v in values[..i] || v == values[i]
  {
    assert values[..i + 1] == values[..i] + [values[i]];
  }

  /** What is in `counts` are the numbers of occurrences, and what is not does not occur. */
  predicate Counts(counts: map<string, nat>, xs: seq<string>) {
    && (forall v :: v in xs ==> v in counts)
    && (forall v :: v in counts ==> counts[v] == Times(xs, v))
  }

  lemma {:induction false} NoTimes(xs: seq<string>, x: string)
    requires x !in xs
    ensures Times(xs, x) == 0
  {
    if xs != [] {
      assert xs[|xs| - 1] in xs && forall y :: y in xs[..|xs| - 1] ==> y in xs;
      NoTimes(xs[..|xs| - 1], x);
    }
  }

  lemma Bump(counts: map<string, nat>, values: seq<string>, i: nat)
    requires i < |values| && Counts(counts, values[..i])
    ensures var v := values[i];
      var counts' := counts[v := (if v in counts then counts[v] else 0) + 1];
      Sum(counts') == Sum(counts) + 1 && Counts(counts', values[..i + 1])
  {
    var v := values[i];
    SumUpdate(counts, v, (if v in counts then counts[v] else 0) + 1);
    assert values[..i + 1] == values[..i] + [v];
    if v !in counts {
      NoTimes(values[..i], v);
    }
    forall w ensures Times(values[..i + 1], w) == Times(values[..i], w) + (if v == w then 1 else 0) {
      TimesSnoc(values, i, w);
    }
  }

  /** The rows of one kind; a row that names none counts as web. */
  function RowsOfKind(evidence: seq<Evidence>, kind: string): nat {
    if evidence == [] then 0
    else
      var last := evidence[|evidence| - 1];
      RowsOfKind(evidence[..|evidence| - 1], kind) +
      (if (if last.kind != "" then last.kind == kind else kind == "web") then 1 else 0)
  }

  lemma {:induction false} KindsAreCounted(evidence: seq<Evidence>, kind: string)
    ensures Times(Kinds(evidence), kind) == RowsOfKind(evidence, kind)
  {
    if evidence != [] {
      var n := |evidence| - 1;
      KindsAreCounted(evidence[..n], kind);
      assert Kinds(evidence)[..n] == Kinds(evidence[..n]);
    }
  }

  /** The source-type donut: the canonical slices and every kind that occurs, each with its number of rows. */
  method Breakdown(evidence: seq<Evidence>) returns (breakdown: map<string, nat>)
    ensures forall k :: k in breakdown <==> k in CANONICAL || k in Kinds(evidence)
    ensures forall k :: k in breakdown ==> breakdown[k] == Times(Kinds(evidence), k)
    ensures forall k :: k in breakdown ==> breakdown[k] == RowsOfKind(evidence, k)
    ensures Sum(breakdown) == |evidence|
  {
    breakdown := CountInto(CANONICAL, Kinds(evidence));
    forall k ensures Times(Kinds(evidence), k) == RowsOfKind(evidence, k) {
      KindsAreCounted(evidence, k);
    }
  }

  // ------------------------------------------------------------------ rows of each rival

  predicate EndsWith(s: string, t: string) {
    |t| <= |s| && s[|s| - |t|..] == t
  }

  /** `_ev_competitor`: the rival that a row names, else the first one whose slug or name ends its claim reference. */
  function Owner(names: Names, e: Evidence, competitors: seq<string>): Option<string> {
    if e.competitor != "" then Some(e.competitor) else ByClaim(names, names.lower(e.claimRef), competitors)
  }

  function ByClaim(names: Names, claim: string, competitors: seq<string>): Option<string> {
    if competitors == [] then None
    else if EndsWith(claim, names.slug(competitors[0])) || EndsWith(claim, names.lower(competitors[0]))
    then Some(competitors[0])
    else ByClaim(names, claim, competitors[1..])
  }

  /** The claim reference ends with the slug or the name of the rival. */
  predicate EndsClaim(names: Names, claim: string, competitor: string) {
    EndsWith(claim, names.slug(competitor)) || EndsWith(claim, names.lower(competitor))
  }

  /** A row that names no rival belongs to the first one whose slug or name ends its claim reference. */
  lemma {:induction false} ByClaimIsFirst(names: Names, claim: string, competitors: seq<string>)
    ensures match ByClaim(names, claim, competitors)
            case None => forall c :: c in competitors ==> !EndsClaim(names, claim, c)
            case Some(r) =>
              exists i :: 0 <= i < |competitors| && competitors[i] == r && EndsClaim(names, claim, r) &&
                          forall j :: 0 <= j < i ==> !EndsClaim(names, claim, competitors[j])
  {
    if competitors != [] && !EndsClaim(names, claim, competitors[0]) {
      ByClaimIsFirst(names, claim, competitors[1..]);
      var r := ByClaim(names, claim, competitors[1..]);
      if r.Some? {
        var i :| 0 <= i < |competitors| - 1 && competitors[1..][i] == r.value &&
                 forall j :: 0 <= j < i ==> !EndsClaim(names, claim, competitors[1..][j]);
        assert competitors[i + 1] == r.value;
        assert forall j :: 0 < j < i + 1 ==> competitors[j] == competitors[1..][j - 1];
      } else {
        assert competitors == [competitors[0]] + competitors[1..];
      }
    }
  }

  /** A row belongs to the rival that it names, and only a row that names none to one that its claim reference tells. */
  lemma OwnerIff(names: Names, e: Evidence, competitors: seq<string>, c: string)
    ensures e.competitor != "" ==> (Owner(names, e, competitors) == Some(c) <==> e.competitor == c)
    ensures e.competitor == "" && Owner(names, e, competitors) == Some(c) ==>
      c in competitors && EndsClaim(names, names.lower(e.claimRef), c)
    ensures e.competitor == "" && Owner(names, e, competitors) == None ==>
      forall d :: d in competitors ==> !EndsClaim(names, names.lower(e.claimRef), d)
  {
    ByClaimIsFirst(names, names.lower(e.claimRef), competitors);
  }

  /** The confirmed name that a case-folded name stands for: the last one in the list. */
  function Confirmed(names: Names, competitors: seq<string>, folded: string): Option<string> {
    if competitors == [] then None
    else
      var last := competitors[|competitors| - 1];
      if names.lower(last) == folded then Some(last) else Confirmed(names, competitors[..|competitors| - 1], folded)
  }

  /** The rival whose count a row raises, if any. */
  function Counted(names: Names, e: Evidence, competitors: seq<string>): Option<string> {
    match Owner(names, e, competitors)
    case None => None
    case Some(c) => if c == "" then None else Confirmed(names, competitors, names.lower(c))
  }

  /** A row is counted for the confirmed name that its rival's name folds to, and for nobody if there is none. */
  lemma CountedIff(names: Names, e: Evidence, competitors: seq<string>)
    ensures var owner := Owner(names, e, competitors);
      match Counted(names, e, competitors)
      case Some(c) =>
        owner.Some? && owner.value != "" && c in competitors && names.lower(c) == names.lower(owner.value)
      case None =>
        owner.Some? && owner.value != "" ==> forall c :: c in competitors ==> names.lower(c) != names.lower(owner.value)
  {
    var owner := Owner(names, e, competitors);
    if owner.Some? {
      ConfirmedIsListed(names, competitors, names.lower(owner.value));
    }
  }

  function AllCounted(names: Names, evidence: seq<Evidence>, competitors: seq<string>): seq<Option<string>> {
    seq(|evidence|, i requires 0 <= i < |evidence| => Counted(names, evidence[i], competitors))
  }

  lemma {:induction false} ConfirmedIsListed(names: Names, competitors: seq<string>, folded: string)
    ensures match Confirmed(names, competitors, folded)
            case Some(c) => c in competitors && names.lower(c) == folded
            case None => forall c :: c in competitors ==> names.lower(c) != folded
  {
    if competitors != [] {
      var n := |competitors| - 1;
      ConfirmedIsListed(names, competitors[..n], folded);
      assert competitors == competitors[..n] + [competitors[n]];
    }
  }

  /** `lower_map`. */
  method LowerMap(names: Names, competitors: seq<string>) returns (m: map<string, string>)
    ensures forall f :: f in m <==> Confirmed(names, competitors, f).Some?
    ensures forall f :: f in m ==> Confirmed(names, competitors, f) == Some(m[f])
  {
    m := map[];
    for i := 0 to |competitors|
      invariant forall f :: f in m <==> Confirmed(names, competitors[..i], f).Some?
      invariant forall f :: f in m ==> Confirmed(names, competitors[..i], f) == Some(m[f])
    {
      assert competitors[..i + 1][..i] == competitors[..i];
      m := m[names.lower(competitors[i]) := competitors[i]];
    }
    assert competitors[..|competitors|] == competitors;
  }

  /** One more row: the count of the rival it is counted for goes up. */
  lemma CountOne(per: map<string, nat>, counted: seq<Option<string>>, i: nat)
    requires i < |counted| && (counted[i].Some? ==> counted[i].value in per)
    requires forall c :: c in per ==> per[c] == Times(counted[..i], Some(c))
    ensures var per' := if counted[i].None? then per else per[counted[i].value := per[counted[i].value] + 1];
      && Sum(per') == Sum(per) + (if counted[i].None? then 0 else 1)
      && Times(counted[..i + 1], None) == Times(counted[..i], None) + (if counted[i].None? then 1 else 0)
      && forall c :: c in per' ==> per'[c] == Times(counted[..i + 1], Some(c))
  {
    forall o ensures Times(counted[..i + 1], o) == Times(counted[..i], o) + (if counted[i] == o then 1 else 0) {
      TimesSnoc(counted, i, o);
    }
    if counted[i].Some? {
      SumUpdate(per, counted[i].value, per[counted[i].value] + 1);
    }
  }

  /** The rows of each rival. The counts add up to the rows that are counted for someone. */
  method PerCompetitor(names: Names, evidence: seq<Evidence>, competitors: seq<string>) returns (per: map<string, nat>)
    ensures forall c :: c in per <==> c in competitors
    ensures forall c :: c in per ==> per[c] == Times(AllCounted(names, evidence, competitors), Some(c))
    ensures Sum(per) + Times(AllCounted(names, evidence, competitors), None) == |evidence|
  {
    var lowerMap := LowerMap(names, competitors);
    per := map c | c in competitors :: 0;
    SumOfZeros(per);
    ghost var counted := AllCounted(names, evidence, competitors);
    for i := 0 to |evidence|
      invariant forall c :: c in per <==> c in competitors
      invariant forall c :: c in per ==> per[c] == Times(counted[..i], Some(c))
      invariant Sum(per) + Times(counted[..i], None) == i
    {
      var owner := Owner(names, evidence[i], competitors);
      assert counted[i] == Counted(names, evidence[i], competitors);
      if owner.Some? {
        ConfirmedIsListed(names, competitors, names.lower(owner.value));
      }
      CountOne(per, counted, i);
      if owner.Some? && owner.value != "" && names.lower(owner.value) in lowerMap {
        var c := lowerMap[names.lower(owner.value)];
        per := per[c := per[c] + 1];
      }
    }
    assert counted[..|evidence|] == counted;
  }

  // ------------------------------------------------------------------ corroboration

  /** The source keys behind one claim. */
  function SourcesOf(evidence: seq<Evidence>, claim: string): set<string> {
    set e | e in evidence && e.claimRef == claim :: e.source
  }

  function Claims(evidence: seq<Evidence>): set<string> {
    set e | e in evidence && e.claimRef != "" :: e.claimRef
  }

  function CorroboratedClaims(evidence: seq<Evidence>): set<string> {
    set c | c in Claims(evidence) && |SourcesOf(evidence, c)| >= 2
  }

  /** A claim is corroborated exactly when two of its rows name different sources. */
  lemma CorroboratedIff(evidence: seq<Evidence>, claim: string)
    ensures claim in CorroboratedClaims(evidence) <==>
      claim != "" && exists e, f :: e in evidence && f in evidence && e.claimRef == f.claimRef == claim && e.source != f.source
  {
    var sources := SourcesOf(evidence, claim);
    if claim in CorroboratedClaims(evidence) {
      var x :| x in sources;
      TwoMembers(sources, x);
      var y :| y in sources && y != x;
    }
    if e, f :| e in evidence && f in evidence && e.claimRef == f.claimRef == claim && e.source != f.source {
      SubsetSize({e.source, f.source}, sources);
    }
  }

  lemma TwoMembers(xs: set<string>, x: string)
    requires |xs| >= 2 && x in xs
    ensures exists y :: y in xs && y != x
  {
    assert xs - {x} != {} by {
      assert |xs - {x}| == |xs| - 1;
    }
    var y :| y in xs - {x};
  }

  /** `_claim_source_sets`. */
  method ClaimSourceSets(evidence: seq<Evidence>) returns (groups: map<string, set<string>>)
    ensures groups.Keys == Claims(evidence)
    ensures forall c :: c in groups ==> groups[c] == SourcesOf(evidence, c)
  {
    groups := map[];
    for i := 0 to |evidence|
      invariant groups.Keys == Claims(evidence[..i])
      invariant forall c :: c in groups ==> groups[c] == SourcesOf(evidence[..i], c)
    {
      var e := evidence[i];
      assert evidence[..i + 1] == evidence[..i] + [e];
      if e.claimRef != "" {
        var sources := if e.claimRef in groups then groups[e.claimRef] else {};
        assert sources == SourcesOf(evidence[..i], e.claimRef);
        groups := groups[e.claimRef := sources + {e.source}];
      }
    }
    assert evidence[..|evidence|] == evidence;
  }

  /** Rounding of a quotient to the nearest whole number, ties to the even one. */
  function RoundQuotient(p: nat, q: nat): (r: nat)
    requires q > 0
    ensures -(q as int) <= 2 * (q * r - p) <= q
    ensures 2 * (q * r - p) == q || 2 * (p - q * r) == q ==> r % 2 == 0
  {
    var d, m := p / q, p % q;
    assert p == q * d + m;
    if 2 * m < q then d
    else if 2 * m > q then QuotientUp(p, q, d, m); d + 1
    else if d % 2 == 0 then d
    else QuotientUp(p, q, d, m); d + 1
  }

  lemma QuotientUp(p: nat, q: nat, d: nat, m: nat)
    requires p == q * d + m
    ensures q * (d + 1) - p == q - m
  {
  }

  /** `_corroboration`: the rate is a percentage within one half of the exact one, absent exactly when there are no
      claims, and the uncorroborated claims are the rest. */
  method Corroboration(evidence: seq<Evidence>) returns (rate: Option<nat>, uncorroborated: nat)
    ensures rate.None? <==> Claims(evidence) == {}
    ensures var t, c := |Claims(evidence)|, |CorroboratedClaims(evidence)|;
      && c + uncorroborated == t
      && (rate.Some? ==> rate.value <= 100 && -(t as int) <= 2 * (t * rate.value - 100 * c) <= t)
  {
    var groups := ClaimSourceSets(evidence);
    var total := |groups|;
    assert total == |Claims(evidence)|;
    var corroborated := set c | c in groups && |groups[c]| >= 2;
    assert corroborated == CorroboratedClaims(evidence);
    assert Claims(evidence) == corroborated + (Claims(evidence) - corroborated);
    if total == 0 {
      assert groups.Keys == {};
      return None, 0;
    }
    var r := RoundQuotient(100 * |corroborated|, total);
    PercentageFits(total, |corroborated|, r);
    return Some(r), total - |corroborated|;
  }

  lemma PercentageFits(t: nat, c: nat, r: nat)
    requires 0 < t && c <= t && 2 * (t * r - 100 * c) <= t
    requires 2 * (t * r - 100 * c) == t ==> r % 2 == 0
    ensures r <= 100
  {
    var x := r - 100;
    assert t * x == t * r - t * 100;
    assert 2 * (t * x) <= t;
    assert x >= 1 ==> t * x >= t;
  }

  // ------------------------------------------------------------------ signals

  function SignalKinds(signals: seq<SignalRow>): seq<string> {
    seq(|signals|, i requires 0 <= i < |signals| => signals[i].kind)
  }

  function NonEmpty(values: seq<string>): seq<string> {
    if values == [] then []
    else
      var last := values[|values| - 1];
      NonEmpty(values[..|values| - 1]) + (if last != "" then [last] else [])
  }

  lemma {:induction false} NonEmptyCounts(values: seq<string>)
    ensures forall v :: v != "" ==> Times(NonEmpty(values), v) == Times(values, v)
    ensures forall v :: v in NonEmpty(values) <==> v in values && v != ""
    ensures |NonEmpty(values)| + Times(values, "") == |values|
  {
    if values != [] {
      var n := |values| - 1;
      NonEmptyCounts(values[..n]);
      assert values == values[..n] + [values[n]];
      var init := NonEmpty(values[..n]);
      TimesMore(init, values[n]);
      assert NonEmpty(values) == if values[n] != "" then init + [values[n]] else init;
    }
  }

  lemma TimesMore(xs: seq<string>, x: string)
    ensures forall v :: Times(xs + [x], v) == Times(xs, v) + if v == x then 1 else 0
  {
    assert (xs + [x])[..|xs|] == xs;
  }

  /** `_tally`: empty values are skipped, so the counts add up to the others. */
  method Tally(values: seq<string>) returns (counts: map<string, nat>)
    ensures forall v :: v in counts <==> v in values && v != ""
    ensures forall v :: v in counts ==> counts[v] == Times(values, v)
    ensures Sum(counts) + Times(values, "") == |values|
  {
    NonEmptyCounts(values);
    counts := CountInto([], NonEmpty(values));
  }

  /** The rivals with a signal of one kind that the confirmed list names, in any letter case. */
  function RivalsWith(names: Names, signals: seq<SignalRow>, kind: string, competitors: seq<string>): set<string> {
    var confirmed := set c | c in competitors :: names.lower(c);
    set s | s in signals && s.kind == kind && s.competitor != "" && names.lower(s.competitor) in confirmed :: s.competitor
  }

  // ------------------------------------------------------------------ the other figures

  const LABELS := ["POSITIVE", "NEUTRAL", "NEGATIVE"]

  /** `_sentiment_buckets`: three buckets, each with the number of rivals of its label; other labels count for none. */
  method SentimentBuckets(labels: seq<string>) returns (buckets: map<string, nat>)
    ensures forall l :: l in buckets <==> l in LABELS
    ensures forall l :: l in buckets ==> buckets[l] == Times(labels, l)
  {
    buckets := map l | l in LABELS :: 0;
    for i := 0 to |labels|
      invariant forall l :: l in buckets <==> l in LABELS
      invariant forall l :: l in buckets ==> buckets[l] == Times(labels[..i], l)
    {
      forall l ensures Times(labels[..i + 1], l) == Times(labels[..i], l) + (if labels[i] == l then 1 else 0) {
        TimesSnoc(labels, i, l);
      }
      if labels[i] in buckets {
        buckets := buckets[labels[i] := buckets[labels[i]] + 1];
      }
    }
    assert labels[..|labels|] == labels;
  }

  /** `_min_age_days`: the least age of a dated row that does not lie in the future. */
  method MinAgeDays(evidence: seq<Evidence>) returns (age: Option<nat>)
    ensures age.Some? <==> exists e :: e in evidence && e.age.Some? && e.age.value >= 0
    ensures age.Some? ==>
      && (exists e :: e in evidence && e.age == Some(age.value))
      && forall e :: e in evidence && e.age.Some? && e.age.value >= 0 ==> age.value <= e.age.value
  {
    age := None;
    for i := 0 to |evidence|
      invariant age.Some? <==> exists e :: e in evidence[..i] && e.age.Some? && e.age.value >= 0
      invariant age.Some? ==> exists e :: e in evidence[..i] && e.age == Some(age.value)
      invariant age.Some? ==>
        forall e :: e in evidence[..i] && e.age.Some? && e.age.value >= 0 ==> age.value <= e.age.value
    {
      var e := evidence[i];
      assert evidence[..i + 1] == evidence[..i] + [e];
      assert e in evidence[..i + 1];
      if e.age.Some? && e.age.value >= 0 && (age.None? || e.age.value < age.value) {
        age := Some(e.age.value);
      }
    }
    assert evidence[..|evidence|] == evidence;
  }

  function Total(xs: seq<real>): real {
    if xs == [] then 0.0 else Total(xs[..|xs| - 1]) + xs[|xs| - 1]
  }

  /** The mean confidence of the recommendations, rounded; absent when there are none. */
  function Average(xs: seq<real>, round: real -> real): Option<real> {
    if xs == [] then None else Some(round(Total(xs) / |xs| as real))
  }

  lemma {:induction false} TotalBetween(xs: seq<real>)
    requires forall x :: x in xs ==> FLOOR <= x <= CEIL
    ensures FLOOR * |xs| as real <= Total(xs) <= CEIL * |xs| as real
  {
    if xs != [] {
      var n := |xs| - 1;
      assert forall x :: x in xs[..n] ==> x in xs;
      TotalBetween(xs[..n]);
      assert xs[n] in xs && |xs| as real == n as real + 1.0;
    }
  }

  /** The total adds up every number once. */
  lemma {:induction false} TotalAddsUp(a: seq<real>, b: seq<real>)
    ensures Total(a + b) == Total(a) + Total(b)
  {
    if b == [] {
      assert a + b == a;
    } else {
      assert (a + b)[..|a + b| - 1] == a + b[..|b| - 1];
      TotalAddsUp(a, b[..|b| - 1]);
    }
  }

  lemma TotalOfOne(x: real)
    ensures Total([x]) == x
  {
    assert [x][..0] == [];
  }

  /** The average lies between the whole hundredths between which the exact mean lies. */
  lemma AverageIsTheMean(xs: seq<real>, round: real -> real, k: nat)
    requires IsRounding(round) && xs != [] && Cents(k) * |xs| as real <= Total(xs) <= Cents(k + 1) * |xs| as real
    ensures Average(xs, round).Some?
    ensures Cents(k) <= Average(xs, round).value <= Cents(k + 1)
  {
    MeanWithin(Total(xs), |xs|, Cents(k), Cents(k + 1));
    RoundBetween(round, Total(xs) / |xs| as real, k, k + 1);
  }

  lemma MeanWithin(total: real, n: nat, lo: real, hi: real)
    requires n > 0 && lo * n as real <= total <= hi * n as real
    ensures lo <= total / n as real <= hi
  {
    var mean := total / n as real;
    assert mean * n as real == total;
    Cancel(lo, mean, n as real);
    Cancel(mean, hi, n as real);
  }

  lemma Cancel(x: real, y: real, n: real)
    requires n > 0.0 && x * n <= y * n
    ensures x <= y
  {
    assert (y - x) * n >= 0.0;
  }

  /** The average of confidences in the range of the report model stays in that range. */
  lemma AverageInRange(xs: seq<real>, round: real -> real)
    requires IsRounding(round) && forall x :: x in xs ==> FLOOR <= x <= CEIL
    ensures Average(xs, round).Some? ==> FLOOR <= Average(xs, round).value <= CEIL
  {
    if xs != [] {
      TotalBetween(xs);
      MeanBetween(Total(xs), |xs|);
      assert Cents(5) == FLOOR && Cents(95) == CEIL;
      RoundBetween(round, Total(xs) / |xs| as real, 5, 95);
    }
  }

  lemma MeanBetween(total: real, n: nat)
    requires n > 0 && FLOOR * n as real <= total <= CEIL * n as real
    ensures FLOOR <= total / n as real <= CEIL
  {
  }

  /** `_distinct_sources`. */
  function SourceKeys(evidence: seq<Evidence>): set<string> {
    set e | e in evidence && e.source != "" :: e.source
  }

  lemma {:induction false} SourceKeysFit(evidence: seq<Evidence>)
    ensures |SourceKeys(evidence)| <= |evidence|
  {
    if evidence != [] {
      var init, last := evidence[..|evidence| - 1], evidence[|evidence| - 1];
      SourceKeysFit(init);
      assert evidence == init + [last];
      assert SourceKeys(evidence) == SourceKeys(init) + if last.source != "" then {last.source} else {};
    }
  }

  /** A corroborated claim needs at least one named source. */
  lemma CorroborationNeedsSources(evidence: seq<Evidence>)
    ensures CorroboratedClaims(evidence) != {} ==> SourceKeys(evidence) != {}
  {
    if c :| c in CorroboratedClaims(evidence) {
      if SourceKeys(evidence) == {} {
        assert SourcesOf(evidence, c) <= {""};
        SubsetSize(SourcesOf(evidence, c), {""});
      }
    }
  }

  /** `compute_stats`; `labels` are the sentiment labels of the report and `confidences` those of its recommendations. */
  method ComputeStats(names: Names, evidence: seq<Evidence>, signals: seq<SignalRow>, competitors: seq<string>,
                      labels: seq<string>, confidences: seq<real>, round: real -> real)
    returns (b: Block)
    ensures b.evidenceCount == |evidence| && b.competitorsAnalyzed == |competitors|
    ensures Sum(b.breakdown) == |evidence|
    ensures forall k :: k in b.breakdown <==> k in CANONICAL || k in Kinds(evidence)
    ensures forall k :: k in b.breakdown ==> b.breakdown[k] == Times(Kinds(evidence), k)
    ensures forall c :: c in b.perCompetitor <==> c in competitors
    ensures forall c :: c in b.perCompetitor ==>
      b.perCompetitor[c] == Times(AllCounted(names, evidence, competitors), Some(c))
    ensures Sum(b.perCompetitor) + Times(AllCounted(names, evidence, competitors), None) == |evidence|
    ensures Sum(b.byType) + Times(SignalKinds(signals), "") == |signals|
    ensures forall v :: v in b.byType ==> b.byType[v] == Times(SignalKinds(signals), v)
    ensures b.withComplaints == |RivalsWith(names, signals, "complaint", competitors)|
    ensures forall l :: l in b.spread <==> l in LABELS
    ensures forall l :: l in b.spread ==> b.spread[l] == Times(labels, l)
    ensures b.average == if confidences == [] then None else Some(round(Total(confidences) / |confidences| as real))
    ensures b.freshest.Some? <==> exists e :: e in evidence && e.age.Some? && e.age.value >= 0
    ensures b.freshest.Some? ==>
      && (exists e :: e in evidence && e.age == Some(b.freshest.value))
      && forall e :: e in evidence && e.age.Some? && e.age.value >= 0 ==> b.freshest.value <= e.age.value
    ensures b.distinctSources == |SourceKeys(evidence)| <= |evidence|
    ensures b.rate.None? <==> Claims(evidence) == {}
    ensures var t, c := |Claims(evidence)|, |CorroboratedClaims(evidence)|;
      && c + b.uncorroborated == t
      && (b.rate.Some? ==> b.rate.value <= 100 && -(t as int) <= 2 * (t * b.rate.value - 100 * c) <= t)
  {
    var breakdown := Breakdown(evidence);
    var per := PerCompetitor(names, evidence, competitors);
    var byType := Tally(SignalKinds(signals));
    var spread := SentimentBuckets(labels);
    var freshest := MinAgeDays(evidence);
    var rate, uncorroborated := Corroboration(evidence);
    SourceKeysFit(evidence);
    b := Block(|evidence|, |competitors|, per, breakdown, byType,
               |RivalsWith(names, signals, "complaint", competitors)|, spread, Average(confidences, round), freshest,
               |SourceKeys(evidence)|, rate, uncorroborated);
  }
}
