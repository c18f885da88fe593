/** The four-lane LLM router (app/core/llm_router.py) and its usage ledger (app/core/counters.py).
    Every HTTP answer, every schema check and every Redis answer is an arbitrary oracle. */
module LlmRouter {
  import opened Wrappers
  import Text
  import RepairJson

  const ATTEMPTS_PER_LANE: nat := 2

  datatype Lane = Lane(name: string, keyEnv: string, model: string, budgetKey: string)

  /** A lane with the keys configured for it. */
  datatype Target = Target(lane: Lane, keys: seq<string>)

  /** What the body of a successful answer holds: no usable content, text, or content that is not text. */
  datatype Body = Unusable | Content(text: string) | NotText

  datatype Response = Http(code: int, body: Body) | TransportError

  /** One request of the walk: lane, key and attempt, all counted from zero. */
  datatype Slot = Slot(lane: nat, key: nat, attempt: nat)

  datatype Kind<+T> = Retry | RotateKey | SkipLane | Answer(value: T) | Crash

  datatype Outcome<+T> = Answered(value: T, name: string) | Exhausted | NotConfigured | Crashed

  /** What the loop body does with an answer: the status classes of sections 15.3 to 15.6 of RFC 9110. */
  function Classify<T>(r: Response, parse: string -> Option<T>): Kind<T> {
    match r
    case TransportError => Retry
    case Http(code, body) =>
      if 400 <= code < 500 then RotateKey
      else if code >= 500 then Retry
      else if code < 200 || code >= 300 then SkipLane
      else match body
        case Unusable => SkipLane
        case NotText => Crash
        case Content(text) =>
          if text == "" then SkipLane
          else match parse(RepairJson.Repaired(text))
            case Some(v) => Answer(v)
            case None => SkipLane
  }

  function KindOf<T>(net: Slot -> Response, parse: string -> Option<T>): Slot -> Kind<T> {
    p => Classify(net(p), parse)
  }

  /** The chosen lanes of one call and what each possible request would lead to. */
  datatype Call<T> = Call(targets: seq<Target>, kind: Slot -> Kind<T>)

  // ------------------------------------------------------------------ keys

  function Rotation(fields: seq<string>): seq<string> {
    if fields == [] then []
    else
      var init, k := Rotation(fields[..|fields| - 1]), Text.Strip(fields[|fields| - 1]);
      if k != "" && k !in init then init + [k] else init
  }

  function KeysIn(raw: string): seq<string> {
    Rotation(Text.Split(raw, ','))
  }

  method KeysFor(raw: string) returns (keys: seq<string>)
    ensures keys == KeysIn(raw)
  {
    var fields := Text.Split(raw, ',');
    keys := [];
    var seen: set<string> := {};
    for i := 0 to |fields|
      invariant keys == Rotation(fields[..i])
      invariant forall k :: k in seen <==> k in keys
    {
      assert fields[..i + 1][..i] == fields[..i];
      var k := Text.Strip(fields[i]);
      if k != "" && k !in seen {
        seen := seen + {k};
        keys := keys + [k];
      }
    }
    assert fields[..|fields|] == fields;
  }

  /** `k` is one of the fields, trimmed. */
  predicate IsField(fields: seq<string>, k: string) {
    exists i :: 0 <= i < |fields| && Text.Strip(fields[i]) == k
  }

  lemma {:induction false} RotationMembers(fields: seq<string>)
    ensures Distinct(Rotation(fields))
    ensures forall k :: k in Rotation(fields) <==> k != "" && IsField(fields, k)
  {
    if fields != [] {
      var init, last := fields[..|fields| - 1], Text.Strip(fields[|fields| - 1]);
      RotationMembers(init);
      forall k ensures IsField(fields, k) <==> IsField(init, k) || k == last {
        if IsField(init, k) {
          var i :| 0 <= i < |init| && Text.Strip(init[i]) == k;
          assert fields[i] == init[i];
        }
      }
    }
  }

  /** The rotation list holds every non-empty trimmed field exactly once and nothing else. */
  lemma KeysInMembers(raw: string)
    ensures Distinct(KeysIn(raw))
    ensures forall k :: k in KeysIn(raw) <==> k != "" && IsField(Text.Split(raw, ','), k)
  {
    RotationMembers(Text.Split(raw, ','));
  }

  function Trimmed(fields: seq<string>): seq<string> {
    seq(|fields|, i requires 0 <= i < |fields| => Text.Strip(fields[i]))
  }

  function NonEmpty(): string -> bool {
    (k: string) => k != ""
  }

  /** In the order in which they first occur. */
  lemma {:induction false} RotationOrder(fields: seq<string>)
    ensures Rotation(fields) == Unique(Filter(Trimmed(fields), NonEmpty()))
  {
    if fields != [] {
      var n := |fields| - 1;
      RotationOrder(fields[..n]);
      var kept, last := Filter(Trimmed(fields[..n]), NonEmpty()), Text.Strip(fields[n]);
      assert Trimmed(fields)[..n] == Trimmed(fields[..n]) && Trimmed(fields)[n] == last;
      assert last != "" ==> (kept + [last])[..|kept|] == kept;
    }
  }

  // ------------------------------------------------------------------ the nested walk

  datatype End<+T> = NextKey | NextLane | Stop(outcome: Outcome<T>)

  datatype Trace<+T> = Trace(log: seq<Slot>, end: End<T>)

  function After<T>(log: seq<Slot>, t: Trace<T>): Trace<T> {
    t.(log := log + t.log)
  }

  function Attempts<T>(c: Call<T>, l: nat, k: nat, a: nat): Trace<T>
    requires l < |c.targets|
    decreases ATTEMPTS_PER_LANE - a
  {
    if a >= ATTEMPTS_PER_LANE then Trace([], NextKey)
    else
      var p := Slot(l, k, a);
      match c.kind(p)
      case Retry => After([p], Attempts(c, l, k, a + 1))
      case RotateKey => Trace([p], NextKey)
      case SkipLane => Trace([p], NextLane)
      case Answer(v) => Trace([p], Stop(Answered(v, c.targets[l].lane.name)))
      case Crash => Trace([p], Stop(Crashed))
  }

  function Keys<T>(c: Call<T>, l: nat, k: nat): Trace<T>
    requires l < |c.targets|
    decreases |c.targets[l].keys| - k
  {
    if k >= |c.targets[l].keys| then Trace([], NextLane)
    else
      var t := Attempts(c, l, k, 0);
      if t.end == NextKey then After(t.log, Keys(c, l, k + 1)) else t
  }

  function Lanes<T>(c: Call<T>, l: nat): Trace<T>
    decreases |c.targets| - l
  {
    if l >= |c.targets| then Trace([], Stop(Exhausted))
    else
      var t := Keys(c, l, 0);
      if t.end.Stop? then t else After(t.log, Lanes(c, l + 1))
  }

  function Walk<T>(c: Call<T>): Trace<T> {
    Lanes(c, 0)
  }

  // ------------------------------------------------------------------ the flat specification

  predicate InRange<T>(c: Call<T>, p: Slot) {
    p.lane < |c.targets| && p.key < |c.targets[p.lane].keys| && p.attempt < ATTEMPTS_PER_LANE
  }

  /** The walk order lane, then key, then attempt. */
  predicate Before(p: Slot, q: Slot) {
    p.lane < q.lane || (p.lane == q.lane && (p.key < q.key || (p.key == q.key && p.attempt < q.attempt)))
  }

  /** A request answered like `p` rules out the later request `q`. */
  predicate Blocks<T>(c: Call<T>, p: Slot, q: Slot) {
    match c.kind(p)
    case Retry => false
    case RotateKey => p.lane == q.lane && p.key == q.key
    case SkipLane => p.lane == q.lane
    case Answer(_) => true
    case Crash => true
  }

  /** `q` is sent exactly when no earlier sent request rules it out. */
  ghost predicate Sent<T>(c: Call<T>, q: Slot)
    decreases q.lane, q.key, q.attempt
  {
    InRange(c, q) && forall p: Slot | InRange(c, p) && Before(p, q) :: Sent(c, p) ==> !Blocks(c, p, q)
  }

  ghost predicate Sorted(log: seq<Slot>) {
    forall i, j :: 0 <= i < j < |log| ==> Before(log[i], log[j])
  }

  /** No request of `log` rules out `q`. */
  ghost predicate Free<T>(c: Call<T>, log: seq<Slot>, q: Slot) {
    forall p :: p in log && Before(p, q) ==> !Blocks(c, p, q)
  }

  ghost predicate EndsAt<T>(c: Call<T>, p: Slot, r: Outcome<T>) {
    match c.kind(p)
    case Answer(v) => p.lane < |c.targets| && r == Answered(v, c.targets[p.lane].lane.name)
    case Crash => r == Crashed
    case _ => false
  }

  predicate Final<T>(e: End<T>) {
    e.Stop? && (e.outcome.Answered? || e.outcome.Crashed?)
  }

  /** No request of the log is final. */
  ghost predicate NoFinal<T>(c: Call<T>, log: seq<Slot>) {
    forall p :: p in log ==> !c.kind(p).Answer? && !c.kind(p).Crash?
  }

  /** Only the last request of a trace can be final, and the trace ends the way that request says. */
  ghost predicate Ends<T>(c: Call<T>, t: Trace<T>) {
    if Final(t.end) then
      |t.log| > 0 && EndsAt(c, t.log[|t.log| - 1], t.end.outcome) && NoFinal(c, t.log[..|t.log| - 1])
    else NoFinal(c, t.log)
  }

  lemma EndsAfter<T>(c: Call<T>, log: seq<Slot>, t: Trace<T>)
    requires NoFinal(c, log) && Ends(c, t)
    ensures Ends(c, After(log, t))
  {
    if Final(t.end) {
      assert (log + t.log)[..|log + t.log| - 1] == log + t.log[..|t.log| - 1];
    }
  }

  /** Requests that come after `q` decide nothing about it. */
  lemma FreeLeft<T>(c: Call<T>, a: seq<Slot>, b: seq<Slot>, q: Slot)
    requires forall p :: p in b ==> !Before(p, q) && p != q
    ensures q in a + b <==> q in a
    ensures Free(c, a + b, q) <==> Free(c, a, q)
  {
    assert forall p :: p in a + b <==> p in a || p in b;
  }

  /** Nor do requests that do not rule it out. */
  lemma FreeRight<T>(c: Call<T>, a: seq<Slot>, b: seq<Slot>, q: Slot)
    requires forall p :: p in a ==> !Blocks(c, p, q) && p != q
    ensures q in a + b <==> q in b
    ensures Free(c, a + b, q) <==> Free(c, b, q)
  {
    assert forall p :: p in a + b <==> p in a || p in b;
  }

  lemma SortedConcat(a: seq<Slot>, b: seq<Slot>)
    requires Sorted(a) && Sorted(b) && forall p, q :: p in a && q in b ==> Before(p, q)
    ensures Sorted(a + b)
  {
  }

  /** The requests of a trace lie in the part of the walk it covers. */
  ghost predicate Within(log: seq<Slot>, l: nat, k: nat, a: nat) {
    forall q :: q in log ==> q.lane == l && q.key == k && a <= q.attempt < ATTEMPTS_PER_LANE
  }

  ghost predicate WithinLane(log: seq<Slot>, l: nat, k: nat, n: nat) {
    forall q :: q in log ==> q.lane == l && k <= q.key < n && q.attempt < ATTEMPTS_PER_LANE
  }

  ghost predicate WithinLanes<T>(c: Call<T>, log: seq<Slot>, l: nat) {
    forall q :: q in log ==> InRange(c, q) && q.lane >= l
  }

  lemma {:induction false} AttemptsShape<T>(c: Call<T>, l: nat, k: nat, a: nat)
    requires l < |c.targets|
    ensures Within(Attempts(c, l, k, a).log, l, k, a)
    decreases ATTEMPTS_PER_LANE - a
  {
    if a < ATTEMPTS_PER_LANE && c.kind(Slot(l, k, a)).Retry? {
      AttemptsShape(c, l, k, a + 1);
    }
  }

  lemma {:induction false} KeysShape<T>(c: Call<T>, l: nat, k: nat)
    requires l < |c.targets|
    ensures WithinLane(Keys(c, l, k).log, l, k, |c.targets[l].keys|)
    decreases |c.targets[l].keys| - k
  {
    if k < |c.targets[l].keys| {
      AttemptsShape(c, l, k, 0);
      KeysShape(c, l, k + 1);
    }
  }

  lemma {:induction false} LanesShape<T>(c: Call<T>, l: nat)
    ensures WithinLanes(c, Lanes(c, l).log, l)
    decreases |c.targets| - l
  {
    if l < |c.targets| {
      KeysShape(c, l, 0);
      LanesShape(c, l + 1);
      WithinBoth(c, Keys(c, l, 0).log, Lanes(c, l + 1).log, l);
    }
  }

  lemma WithinBoth<T>(c: Call<T>, a: seq<Slot>, b: seq<Slot>, l: nat)
    requires l < |c.targets| && WithinLane(a, l, 0, |c.targets[l].keys|) && WithinLanes(c, b, l + 1)
    ensures WithinLanes(c, a, l) && WithinLanes(c, a + b, l)
  {
    assert forall p :: p in a + b <==> p in a || p in b;
  }

  lemma {:induction false} AttemptsSorted<T>(c: Call<T>, l: nat, k: nat, a: nat)
    requires l < |c.targets|
    ensures Sorted(Attempts(c, l, k, a).log)
    decreases ATTEMPTS_PER_LANE - a
  {
    if a < ATTEMPTS_PER_LANE && c.kind(Slot(l, k, a)).Retry? {
      AttemptsShape(c, l, k, a + 1);
      AttemptsSorted(c, l, k, a + 1);
      SortedConcat([Slot(l, k, a)], Attempts(c, l, k, a + 1).log);
    }
  }

  lemma {:induction false} KeysSorted<T>(c: Call<T>, l: nat, k: nat)
    requires l < |c.targets|
    ensures Sorted(Keys(c, l, k).log)
    decreases |c.targets[l].keys| - k
  {
    if k < |c.targets[l].keys| {
      AttemptsShape(c, l, k, 0);
      KeysShape(c, l, k + 1);
      AttemptsSorted(c, l, k, 0);
      KeysSorted(c, l, k + 1);
      SortedConcat(Attempts(c, l, k, 0).log, Keys(c, l, k + 1).log);
    }
  }

  lemma {:induction false} LanesSorted<T>(c: Call<T>, l: nat)
    ensures Sorted(Lanes(c, l).log)
    decreases |c.targets| - l
  {
    if l < |c.targets| {
      KeysShape(c, l, 0);
      LanesShape(c, l + 1);
      KeysSorted(c, l, 0);
      LanesSorted(c, l + 1);
      SortedConcat(Keys(c, l, 0).log, Lanes(c, l + 1).log);
    }
  }

  lemma {:induction false} AttemptsEnds<T>(c: Call<T>, l: nat, k: nat, a: nat)
    requires l < |c.targets|
    ensures var t := Attempts(c, l, k, a); Ends(c, t) && (t.end.Stop? ==> Final(t.end))
    decreases ATTEMPTS_PER_LANE - a
  {
    if a < ATTEMPTS_PER_LANE && c.kind(Slot(l, k, a)).Retry? {
      AttemptsEnds(c, l, k, a + 1);
      EndsAfter(c, [Slot(l, k, a)], Attempts(c, l, k, a + 1));
    }
  }

  lemma {:induction false} KeysEnds<T>(c: Call<T>, l: nat, k: nat)
    requires l < |c.targets|
    ensures var t := Keys(c, l, k); Ends(c, t) && (t.end.NextLane? || Final(t.end))
    decreases |c.targets[l].keys| - k
  {
    if k < |c.targets[l].keys| {
      AttemptsEnds(c, l, k, 0);
      if Attempts(c, l, k, 0).end.NextKey? {
        KeysEnds(c, l, k + 1);
        EndsAfter(c, Attempts(c, l, k, 0).log, Keys(c, l, k + 1));
      }
    }
  }

  lemma {:induction false} LanesEnds<T>(c: Call<T>, l: nat)
    ensures var t := Lanes(c, l); Ends(c, t) && t.end.Stop? && !t.end.outcome.NotConfigured?
    decreases |c.targets| - l
  {
    if l < |c.targets| {
      KeysEnds(c, l, 0);
      if Keys(c, l, 0).end.NextLane? {
        LanesEnds(c, l + 1);
        EndsAfter(c, Keys(c, l, 0).log, Lanes(c, l + 1));
      }
    }
  }

  lemma {:induction false} AttemptsFree<T>(c: Call<T>, l: nat, k: nat, a: nat, q: Slot)
    requires l < |c.targets| && q.lane == l && q.key == k && a <= q.attempt < ATTEMPTS_PER_LANE
    ensures q in Attempts(c, l, k, a).log <==> Free(c, Attempts(c, l, k, a).log, q)
    decreases ATTEMPTS_PER_LANE - a
  {
    var p, u, t := Slot(l, k, a), Attempts(c, l, k, a + 1), Attempts(c, l, k, a);
    AttemptsShape(c, l, k, a + 1);
    assert t.log[0] == p;
    if c.kind(p).Retry? && q != p {
      AttemptsFree(c, l, k, a + 1, q);
      FreeRight(c, [p], u.log, q);
    } else if q != p {
      assert Before(p, q) && Blocks(c, p, q);
    }
  }

  lemma {:induction false} AttemptsEnd<T>(c: Call<T>, l: nat, k: nat, a: nat)
    requires l < |c.targets|
    ensures var t := Attempts(c, l, k, a);
      && (t.end.NextKey? ==> forall q :: q in t.log ==> c.kind(q).Retry? || c.kind(q).RotateKey?)
      && (!t.end.NextKey? ==> |t.log| > 0 && var p := t.log[|t.log| - 1];
                              c.kind(p).SkipLane? || c.kind(p).Answer? || c.kind(p).Crash?)
    decreases ATTEMPTS_PER_LANE - a
  {
    if a < ATTEMPTS_PER_LANE {
      AttemptsEnd(c, l, k, a + 1);
    }
  }

  lemma {:induction false} KeysFree<T>(c: Call<T>, l: nat, k: nat, q: Slot)
    requires l < |c.targets| && InRange(c, q) && q.lane == l && q.key >= k
    ensures q in Keys(c, l, k).log <==> Free(c, Keys(c, l, k).log, q)
    decreases |c.targets[l].keys| - k
  {
    if q.key == k {
      ThisKeyFree(c, l, k, q);
    } else if Attempts(c, l, k, 0).end.NextKey? {
      KeysFree(c, l, k + 1, q);
      NextKeyFree(c, l, k, q);
    } else {
      LaneLeft(c, l, k, q);
    }
  }

  /** A request with this key: the later keys decide nothing about it. */
  lemma ThisKeyFree<T>(c: Call<T>, l: nat, k: nat, q: Slot)
    requires l < |c.targets| && InRange(c, q) && q.lane == l && q.key == k
    ensures q in Keys(c, l, k).log <==> Free(c, Keys(c, l, k).log, q)
  {
    AttemptsFree(c, l, k, 0, q);
    var log := Attempts(c, l, k, 0).log;
    var rest := LaterKeys(c, l, k);
    FreeLeft(c, log, rest, q);
  }

  /** What is sent with the later keys of a lane. */
  lemma LaterKeys<T>(c: Call<T>, l: nat, k: nat) returns (rest: seq<Slot>)
    requires l < |c.targets| && k < |c.targets[l].keys|
    ensures Keys(c, l, k).log == Attempts(c, l, k, 0).log + rest
    ensures forall p :: p in rest ==> p.lane == l && p.key > k
  {
    rest := [];
    if Attempts(c, l, k, 0).end.NextKey? {
      KeysShape(c, l, k + 1);
      rest := Keys(c, l, k + 1).log;
    }
  }

  /** A request with a later key, this one being used up: nothing sent with this key rules it out. */
  lemma NextKeyFree<T>(c: Call<T>, l: nat, k: nat, q: Slot)
    requires l < |c.targets| && InRange(c, q) && q.lane == l && q.key > k
    requires Attempts(c, l, k, 0).end.NextKey?
    requires q in Keys(c, l, k + 1).log <==> Free(c, Keys(c, l, k + 1).log, q)
    ensures q in Keys(c, l, k).log <==> Free(c, Keys(c, l, k).log, q)
  {
    AttemptsShape(c, l, k, 0);
    AttemptsEnd(c, l, k, 0);
    FreeRight(c, Attempts(c, l, k, 0).log, Keys(c, l, k + 1).log, q);
  }

  /** A request with a later key, the lane being left: the last request rules it out. */
  lemma LaneLeft<T>(c: Call<T>, l: nat, k: nat, q: Slot)
    requires l < |c.targets| && InRange(c, q) && q.lane == l && q.key > k
    requires !Attempts(c, l, k, 0).end.NextKey?
    ensures q !in Keys(c, l, k).log && !Free(c, Keys(c, l, k).log, q)
  {
    var log := Attempts(c, l, k, 0).log;
    AttemptsShape(c, l, k, 0);
    AttemptsEnd(c, l, k, 0);
    var p := log[|log| - 1];
    assert p in log && Before(p, q) && Blocks(c, p, q);
  }

  /** A lane that is not skipped ended with a final request. */
  lemma KeysLast<T>(c: Call<T>, l: nat)
    requires l < |c.targets| && !Keys(c, l, 0).end.NextLane?
    ensures Keys(c, l, 0).end.Stop?
    ensures var log := Keys(c, l, 0).log;
      |log| > 0 && (c.kind(log[|log| - 1]).Answer? || c.kind(log[|log| - 1]).Crash?)
  {
    KeysEnds(c, l, 0);
  }

  lemma KeysPassOn<T>(c: Call<T>, l: nat)
    requires l < |c.targets| && Keys(c, l, 0).end.NextLane?
    ensures NoFinal(c, Keys(c, l, 0).log)
  {
    KeysEnds(c, l, 0);
  }

  lemma {:induction false} LanesFree<T>(c: Call<T>, l: nat, q: Slot)
    requires InRange(c, q) && q.lane >= l
    ensures q in Lanes(c, l).log <==> Free(c, Lanes(c, l).log, q)
    decreases |c.targets| - l
  {
    if q.lane == l {
      KeysFree(c, l, 0, q);
      LanesShape(c, l + 1);
      FreeLeft(c, Keys(c, l, 0).log, Lanes(c, l + 1).log, q);
    } else if Keys(c, l, 0).end.NextLane? {
      LanesFree(c, l + 1, q);
      NextLaneFree(c, l, q);
    } else {
      WalkOver(c, l, q);
    }
  }

  /** A request of a later lane, this one being passed over: nothing sent in this lane rules it out. */
  lemma NextLaneFree<T>(c: Call<T>, l: nat, q: Slot)
    requires InRange(c, q) && q.lane > l && Keys(c, l, 0).end.NextLane?
    requires q in Lanes(c, l + 1).log <==> Free(c, Lanes(c, l + 1).log, q)
    ensures q in Lanes(c, l).log <==> Free(c, Lanes(c, l).log, q)
  {
    KeysShape(c, l, 0);
    KeysPassOn(c, l);
    FreeRight(c, Keys(c, l, 0).log, Lanes(c, l + 1).log, q);
  }

  /** A request of a later lane, the walk being over: the last request rules it out. */
  lemma WalkOver<T>(c: Call<T>, l: nat, q: Slot)
    requires InRange(c, q) && q.lane > l && !Keys(c, l, 0).end.NextLane?
    ensures q !in Lanes(c, l).log && !Free(c, Lanes(c, l).log, q)
  {
    var log := Keys(c, l, 0).log;
    KeysShape(c, l, 0);
    KeysLast(c, l);
    var p := log[|log| - 1];
    assert p in log && Before(p, q) && Blocks(c, p, q);
  }

  lemma {:induction false} WalkSends<T>(c: Call<T>, q: Slot)
    ensures q in Walk(c).log <==> Sent(c, q)
    decreases q.lane, q.key, q.attempt
  {
    LanesShape(c, 0);
    if InRange(c, q) {
      LanesFree(c, 0, q);
    }
    forall p: Slot | InRange(c, p) && Before(p, q) ensures p in Walk(c).log <==> Sent(c, p) {
      WalkSends(c, p);
    }
  }

  /** The nested walk refines the flat specification: it sends exactly the requests that no earlier sent one rules
      out, in walk order and each once; the answer is that of the only valid one, which is the last one sent. */
  lemma WalkIsFlat<T>(c: Call<T>)
    ensures var t := Walk(c);
      && t.end.Stop? && !t.end.outcome.NotConfigured? && Sorted(t.log)
      && (forall q :: q in t.log <==> Sent(c, q))
      && (t.end.outcome.Answered? <==> exists q :: Sent(c, q) && c.kind(q).Answer?)
      && (t.end.outcome.Crashed? <==> exists q :: Sent(c, q) && c.kind(q).Crash?)
      && (t.end.outcome.Exhausted? <==> forall q :: Sent(c, q) ==> !c.kind(q).Answer? && !c.kind(q).Crash?)
      && (forall q :: Sent(c, q) && (c.kind(q).Answer? || c.kind(q).Crash?) ==>
            |t.log| > 0 && t.log[|t.log| - 1] == q && EndsAt(c, q, t.end.outcome))
  {
    LanesSorted(c, 0);
    LanesEnds(c, 0);
    var t := Walk(c);
    forall q ensures q in t.log <==> Sent(c, q) {
      WalkSends(c, q);
    }
    if Final(t.end) {
      assert t.log == t.log[..|t.log| - 1] + [t.log[|t.log| - 1]];
    }
  }

  // ------------------------------------------------------------------ what each answer leads to

  /** The answers as the router's documentation sorts them, by the status classes of sections 15.3 to 15.6 of RFC 9110. */
  predicate ClientError(r: Response) {
    r.Http? && 400 <= r.code < 500
  }

  predicate ServerTrouble(r: Response) {
    r.TransportError? || (r.Http? && r.code >= 500)
  }

  predicate Success(r: Response) {
    r.Http? && 200 <= r.code < 300
  }

  /** A text that the schema accepts once it is repaired. */
  predicate ValidText<T>(r: Response, parse: string -> Option<T>) {
    && Success(r) && r.body.Content? && r.body.text != ""
    && parse(RepairJson.Repaired(r.body.text)).Some?
  }

  predicate Textless(r: Response) {
    Success(r) && r.body.NotText?
  }

  /** Nothing that another key or another attempt could better: a redirect, no content, or a text that does not parse. */
  predicate Useless<T>(r: Response, parse: string -> Option<T>) {
    !ClientError(r) && !ServerTrouble(r) && !ValidText(r, parse) && !Textless(r)
  }

  lemma KindsOfAnswers<T>(r: Response, parse: string -> Option<T>)
    ensures Classify(r, parse).RotateKey? <==> ClientError(r)
    ensures Classify(r, parse).Retry? <==> ServerTrouble(r)
    ensures Classify(r, parse).SkipLane? <==> Useless(r, parse)
    ensures Classify(r, parse).Crash? <==> Textless(r)
    ensures ValidText(r, parse) ==> Classify(r, parse) == Answer(parse(RepairJson.Repaired(r.body.text)).value)
  {
  }

  function CallOver<T>(targets: seq<Target>, net: Slot -> Response, parse: string -> Option<T>): Call<T> {
    Call(targets, KindOf(net, parse))
  }

  lemma SentNext<T>(c: Call<T>, q: Slot, next: Slot)
    requires Sent(c, q) && InRange(c, next) && Before(q, next)
    requires forall p: Slot :: Before(q, p) && Before(p, next) ==> !Sent(c, p)
    requires !Blocks(c, q, next) && (next.lane == q.lane && next.key == q.key ==> next.attempt == q.attempt + 1)
    ensures Sent(c, next)
  {
    forall p: Slot | InRange(c, p) && Before(p, next) && Sent(c, p) ensures !Blocks(c, p, next) {
      assert p == q || Before(p, q) || Before(q, p);
    }
  }

  /** After a request that was sent. A server error or a transport error is retried once with the same key, and then the
      next key has its turn; a client error gives the turn to the next key at once. */
  lemma TroubleMovesToTheNextKey<T>(targets: seq<Target>, net: Slot -> Response, parse: string -> Option<T>, q: Slot)
    requires Sent(CallOver(targets, net, parse), q) && (ClientError(net(q)) || ServerTrouble(net(q)))
    ensures var c := CallOver(targets, net, parse);
      && (q.attempt == 0 ==> (Sent(c, Slot(q.lane, q.key, 1)) <==> ServerTrouble(net(q))))
      && ((ClientError(net(q)) || q.attempt == 1) && q.key + 1 < |targets[q.lane].keys| ==>
            Sent(c, Slot(q.lane, q.key + 1, 0)))
  {
    var c := CallOver(targets, net, parse);
    if ServerTrouble(net(q)) && q.attempt == 0 {
      SentNext(c, q, Slot(q.lane, q.key, 1));
    } else {
      assert forall a :: a > q.attempt ==> !Sent(c, Slot(q.lane, q.key, a));
      if q.key + 1 < |targets[q.lane].keys| {
        SentNext(c, q, Slot(q.lane, q.key + 1, 0));
      }
    }
  }

  /** The last key of a lane that has nothing but trouble, and any useless answer, give the turn to the next lane; and
      after a useless answer nothing more is sent in this one. */
  lemma UselessMovesToTheNextLane<T>(targets: seq<Target>, net: Slot -> Response, parse: string -> Option<T>, q: Slot)
    requires Sent(CallOver(targets, net, parse), q)
    requires Useless(net(q), parse) ||
             (q.key + 1 == |targets[q.lane].keys| && (ClientError(net(q)) || (ServerTrouble(net(q)) && q.attempt == 1)))
    ensures var c := CallOver(targets, net, parse);
      && (forall p: Slot :: Before(q, p) && p.lane == q.lane ==> !Sent(c, p))
      && (q.lane + 1 < |targets| && targets[q.lane + 1].keys != [] ==> Sent(c, Slot(q.lane + 1, 0, 0)))
  {
    var c := CallOver(targets, net, parse);
    forall p: Slot | Before(q, p) && p.lane == q.lane ensures !Sent(c, p) {
      assert InRange(c, p) ==> Blocks(c, q, p);
    }
    if q.lane + 1 < |targets| && targets[q.lane + 1].keys != [] {
      SentNext(c, q, Slot(q.lane + 1, 0, 0));
    }
  }

  /** A valid text ends the call with what the schema makes of it, in the name of its lane; content that is not text ends
      it with a crash; and nothing is sent after either. */
  lemma ValidTextAnswers<T>(targets: seq<Target>, net: Slot -> Response, parse: string -> Option<T>, q: Slot)
    requires Sent(CallOver(targets, net, parse), q) && (ValidText(net(q), parse) || Textless(net(q)))
    ensures var c := CallOver(targets, net, parse);
      && (forall p: Slot :: Before(q, p) ==> !Sent(c, p))
      && Walk(c).end == Stop(
           if Textless(net(q)) then Crashed
           else Answered(parse(RepairJson.Repaired(net(q).body.text)).value, targets[q.lane].lane.name))
  {
    var c := CallOver(targets, net, parse);
    KindsOfAnswers(net(q), parse);
    FinalEnds(c, q);
  }

  lemma FinalEnds<T>(c: Call<T>, q: Slot)
    requires Sent(c, q) && (c.kind(q).Answer? || c.kind(q).Crash?)
    ensures forall p: Slot :: Before(q, p) ==> !Sent(c, p)
    ensures Walk(c).end.Stop? && EndsAt(c, q, Walk(c).end.outcome)
  {
    WalkIsFlat(c);
    forall p: Slot | Before(q, p) ensures !Sent(c, p) {
      assert Blocks(c, q, p);
    }
  }

  // ------------------------------------------------------------------ one bad key

  /** A request is sent if all earlier ones of its lane are troubled and none of an earlier lane is final. */
  lemma KeyIsReached<T>(c: Call<T>, p: Slot)
    requires InRange(c, p) && p.attempt == 0
    requires forall r: Slot :: r.lane == p.lane && r.key < p.key && InRange(c, r) ==> c.kind(r).Retry? || c.kind(r).RotateKey?
    requires forall r: Slot :: r.lane < p.lane && Sent(c, r) ==> !c.kind(r).Answer? && !c.kind(r).Crash?
    ensures Sent(c, p)
  {
  }

  /** A good key ends the call in its lane, or an earlier lane does. */
  lemma GoodKeyEnds<T>(c: Call<T>, p: Slot)
    requires InRange(c, p) && p.attempt == 0 && c.kind(p).Answer?
    requires forall r: Slot :: r.lane == p.lane && r.key < p.key && InRange(c, r) ==> c.kind(r).Retry? || c.kind(r).RotateKey?
    ensures var t := Walk(c);
      && |t.log| > 0 && t.end.Stop? && (t.end.outcome.Answered? || t.end.outcome.Crashed?)
      && (t.log[|t.log| - 1] == p || t.log[|t.log| - 1].lane < p.lane)
      && EndsAt(c, t.log[|t.log| - 1], t.end.outcome)
      && (t.end.outcome.Crashed? <==> exists q: Slot :: q.lane < p.lane && Sent(c, q) && c.kind(q).Crash?)
  {
    if q: Slot :| q.lane < p.lane && Sent(c, q) && (c.kind(q).Answer? || c.kind(q).Crash?) {
      EndsInAnEarlierLane(c, q, p);
    } else {
      KeyIsReached(c, p);
      WalkIsFlat(c);
    }
  }

  /** One bad key never poisons its provider: when a key is answered with a valid text at once, and all earlier keys of its
      lane with nothing but 4xx, 5xx or transport errors, the call ends by this key or in an earlier lane. It is answered
      unless an earlier lane sends content that is not text. */
  lemma OneBadKey<T>(targets: seq<Target>, net: Slot -> Response, parse: string -> Option<T>, l: nat, k: nat)
    requires l < |targets| && k < |targets[l].keys| && ValidText(net(Slot(l, k, 0)), parse)
    requires forall k': nat, a: nat | k' < k && a < ATTEMPTS_PER_LANE ::
               ClientError(net(Slot(l, k', a))) || ServerTrouble(net(Slot(l, k', a)))
    ensures var c := CallOver(targets, net, parse);
      var t := Walk(c);
      && |t.log| > 0 && t.end.Stop? && (t.end.outcome.Answered? || t.end.outcome.Crashed?)
      && (t.log[|t.log| - 1] == Slot(l, k, 0) || t.log[|t.log| - 1].lane < l)
      && (t.log[|t.log| - 1] == Slot(l, k, 0) ==>
            t.end.outcome == Answered(parse(RepairJson.Repaired(net(Slot(l, k, 0)).body.text)).value, targets[l].lane.name))
      && (t.end.outcome.Crashed? <==> exists q: Slot :: q.lane < l && Sent(c, q) && Textless(net(q)))
  {
    var c, p := CallOver(targets, net, parse), Slot(l, k, 0);
    forall r: Slot | r.lane == l && r.key < k && InRange(c, r) ensures c.kind(r).Retry? || c.kind(r).RotateKey? {
      assert r == Slot(l, r.key, r.attempt);
      KindsOfAnswers(net(r), parse);
    }
    KindsOfAnswers(net(p), parse);
    GoodKeyEnds(c, p);
    forall q: Slot ensures c.kind(q).Crash? <==> Textless(net(q)) {
      KindsOfAnswers(net(q), parse);
    }
  }

  lemma EndsInAnEarlierLane<T>(c: Call<T>, q: Slot, p: Slot)
    requires q.lane < p.lane && Sent(c, q) && (c.kind(q).Answer? || c.kind(q).Crash?)
    ensures var t := Walk(c);
      && |t.log| > 0 && t.log[|t.log| - 1] == q && t.end.Stop? && EndsAt(c, q, t.end.outcome)
      && forall r: Slot :: Sent(c, r) && c.kind(r).Crash? ==> r == q
  {
    WalkIsFlat(c);
  }

  // ------------------------------------------------------------------ budgets

  function KeyCount(targets: seq<Target>): nat {
    if targets == [] then 0 else KeyCount(targets[..|targets| - 1]) + |targets[|targets| - 1].keys|
  }

  /** The keys of all rows that draw on the budget `b`. */
  function KeyCountFor(targets: seq<Target>, b: string): nat {
    if targets == [] then 0
    else
      var last := targets[|targets| - 1];
      KeyCountFor(targets[..|targets| - 1], b) + (if last.lane.budgetKey == b then |last.keys| else 0)
  }

  function Used(counts: map<string, nat>, b: string): nat {
    if b in counts then counts[b] else 0
  }

  /** The ledger after one increment, which Redis may refuse. */
  function Count(counts: map<string, nat>, b: string, taken: bool): map<string, nat> {
    if taken then counts[b := Used(counts, b) + 1] else counts
  }

  /** The requests of `log` that count against the budget `b`. */
  function Charged(targets: seq<Target>, log: seq<Slot>, b: string, incr: Slot -> bool): nat {
    if log == [] then 0
    else
      var p := log[|log| - 1];
      Charged(targets, log[..|log| - 1], b, incr) +
      (if p.lane < |targets| && targets[p.lane].lane.budgetKey == b && incr(p) then 1 else 0)
  }

  function CountAll(counts: map<string, nat>, targets: seq<Target>, log: seq<Slot>, incr: Slot -> bool)
    : map<string, nat>
  {
    if log == [] then counts
    else
      var p := log[|log| - 1];
      var before := CountAll(counts, targets, log[..|log| - 1], incr);
      if p.lane < |targets| then Count(before, targets[p.lane].lane.budgetKey, incr(p)) else before
  }

  lemma {:induction false} CountAllCharges(counts: map<string, nat>, targets: seq<Target>, log: seq<Slot>,
                                           incr: Slot -> bool, b: string)
    ensures Used(CountAll(counts, targets, log, incr), b) == Used(counts, b) + Charged(targets, log, b, incr)
  {
    if log != [] {
      CountAllCharges(counts, targets, log[..|log| - 1], incr, b);
    }
  }

  lemma {:induction false} ChargedConcat(targets: seq<Target>, x: seq<Slot>, y: seq<Slot>, b: string,
                                         incr: Slot -> bool)
    ensures Charged(targets, x + y, b, incr) == Charged(targets, x, b, incr) + Charged(targets, y, b, incr)
  {
    if y == [] {
      assert x + y == x;
    } else {
      assert (x + y)[..|x + y| - 1] == x + y[..|y| - 1];
      ChargedConcat(targets, x, y[..|y| - 1], b, incr);
    }
  }

  lemma {:induction false} ChargedInLane(targets: seq<Target>, l: nat, log: seq<Slot>, b: string, incr: Slot -> bool)
    requires l < |targets| && forall q :: q in log ==> q.lane == l
    ensures Charged(targets, log, b, incr) <= if targets[l].lane.budgetKey == b then |log| else 0
  {
    if log != [] {
      ChargedInLane(targets, l, log[..|log| - 1], b, incr);
      assert log[|log| - 1] in log;
    }
  }

  lemma {:induction false} AttemptsLength<T>(c: Call<T>, l: nat, k: nat, a: nat)
    requires l < |c.targets| && a <= ATTEMPTS_PER_LANE
    ensures |Attempts(c, l, k, a).log| <= ATTEMPTS_PER_LANE - a
    decreases ATTEMPTS_PER_LANE - a
  {
    if a < ATTEMPTS_PER_LANE {
      AttemptsLength(c, l, k, a + 1);
    }
  }

  lemma {:induction false} KeysLength<T>(c: Call<T>, l: nat, k: nat)
    requires l < |c.targets| && k <= |c.targets[l].keys|
    ensures |Keys(c, l, k).log| <= ATTEMPTS_PER_LANE * (|c.targets[l].keys| - k)
    decreases |c.targets[l].keys| - k
  {
    if k < |c.targets[l].keys| {
      AttemptsLength(c, l, k, 0);
      KeysLength(c, l, k + 1);
    }
  }

  lemma {:induction false} LanesCharge<T>(c: Call<T>, l: nat, b: string, incr: Slot -> bool)
    requires l <= |c.targets|
    ensures |Lanes(c, l).log| <= ATTEMPTS_PER_LANE * (KeyCount(c.targets) - KeyCount(c.targets[..l]))
    ensures Charged(c.targets, Lanes(c, l).log, b, incr)
         <= ATTEMPTS_PER_LANE * (KeyCountFor(c.targets, b) - KeyCountFor(c.targets[..l], b))
    decreases |c.targets| - l
  {
    if l == |c.targets| {
      assert c.targets[..l] == c.targets;
    } else {
      assert c.targets[..l + 1][..l] == c.targets[..l];
      KeysLength(c, l, 0);
      KeysShape(c, l, 0);
      ChargedInLane(c.targets, l, Keys(c, l, 0).log, b, incr);
      LanesCharge(c, l + 1, b, incr);
      ChargedConcat(c.targets, Keys(c, l, 0).log, Lanes(c, l + 1).log, b, incr);
    }
  }

  /** One call sends at most two requests per chosen key, and charges a budget at most two per key drawing on it. */
  lemma WalkIsBounded<T>(c: Call<T>, b: string, incr: Slot -> bool)
    ensures |Walk(c).log| <= ATTEMPTS_PER_LANE * KeyCount(c.targets)
    ensures Charged(c.targets, Walk(c).log, b, incr) <= ATTEMPTS_PER_LANE * KeyCountFor(c.targets, b)
  {
    LanesCharge(c, 0, b, incr);
  }

  // ------------------------------------------------------------------ the router

  /** What Redis answers during one call: each budget read and each increment succeeds or fails on its own. */
  datatype Redis = Redis(read: nat -> bool, incr: Slot -> bool)

  function Env(env: map<string, string>, name: string): string {
    if name in env then env[name] else ""
  }

  function Configured(lanes: seq<Lane>, env: map<string, string>): seq<Target> {
    if lanes == [] then []
    else
      var lane := lanes[|lanes| - 1];
      var keys := KeysIn(Env(env, lane.keyEnv));
      Configured(lanes[..|lanes| - 1], env) + (if keys == [] then [] else [Target(lane, keys)])
  }

  predicate UnderBudget(caps: map<string, int>, counts: map<string, nat>, b: string, read: bool) {
    b in caps ==> (if read then Used(counts, b) else 0) < caps[b]
  }

  function Affordable(configured: seq<Target>, caps: map<string, int>, counts: map<string, nat>, read: nat -> bool)
    : seq<Target>
  {
    if configured == [] then []
    else
      var n := |configured| - 1;
      Affordable(configured[..n], caps, counts, read) +
      (if UnderBudget(caps, counts, configured[n].lane.budgetKey, read(n)) then [configured[n]] else [])
  }

  function Chosen(configured: seq<Target>, caps: map<string, int>, counts: map<string, nat>, read: nat -> bool)
    : seq<Target>
  {
    var under := Affordable(configured, caps, counts, read);
    if under == [] then configured else under
  }

  /** Every lane with its keys, whether it has some or not. */
  function Offers(lanes: seq<Lane>, env: map<string, string>): seq<Target> {
    seq(|lanes|, i requires 0 <= i < |lanes| => Target(lanes[i], KeysIn(Env(env, lanes[i].keyEnv))))
  }

  function HasKeys(offers: seq<Target>): nat -> bool {
    (i: nat) => i < |offers| && offers[i].keys != []
  }

  function IsAffordable(configured: seq<Target>, caps: map<string, int>, counts: map<string, nat>, read: nat -> bool)
    : nat -> bool
  {
    (i: nat) => i < |configured| && UnderBudget(caps, counts, configured[i].lane.budgetKey, read(i))
  }

  lemma {:induction false} ConfiguredUpTo(lanes: seq<Lane>, env: map<string, string>, m: nat)
    requires m <= |lanes|
    ensures Configured(lanes[..m], env) == Where(Offers(lanes, env), HasKeys(Offers(lanes, env)), m)
  {
    if m > 0 {
      ConfiguredUpTo(lanes, env, m - 1);
      ConfiguredSnoc(lanes, m - 1, env);
    }
  }

  lemma ConfiguredSnoc(lanes: seq<Lane>, m: nat, env: map<string, string>)
    requires m < |lanes|
    ensures Configured(lanes[..m + 1], env) == Configured(lanes[..m], env) +
            if HasKeys(Offers(lanes, env))(m) then [Offers(lanes, env)[m]] else []
  {
    assert lanes[..m + 1][..m] == lanes[..m];
  }

  /** The configured lanes are those with a key, in order, each with its keys. */
  lemma ConfiguredAreThoseWithKeys(lanes: seq<Lane>, env: map<string, string>)
    ensures Configured(lanes, env) == Where(Offers(lanes, env), HasKeys(Offers(lanes, env)), |lanes|)
  {
    ConfiguredUpTo(lanes, env, |lanes|);
    assert lanes[..|lanes|] == lanes;
  }

  lemma {:induction false} AffordableUpTo(configured: seq<Target>, caps: map<string, int>, counts: map<string, nat>,
                                          read: nat -> bool, m: nat)
    requires m <= |configured|
    ensures Affordable(configured[..m], caps, counts, read)
         == Where(configured, IsAffordable(configured, caps, counts, read), m)
  {
    if m > 0 {
      AffordableUpTo(configured, caps, counts, read, m - 1);
      assert configured[..m][..m - 1] == configured[..m - 1];
    }
  }

  /** The lanes chosen are those under their budget, in order, if there are any, and else all. */
  lemma ChosenAreThoseUnderBudget(configured: seq<Target>, caps: map<string, int>, counts: map<string, nat>,
                                  read: nat -> bool)
    ensures var under := Where(configured, IsAffordable(configured, caps, counts, read), |configured|);
      Chosen(configured, caps, counts, read) == if under == [] then configured else under
  {
    AffordableUpTo(configured, caps, counts, read, |configured|);
    assert configured[..|configured|] == configured;
  }

  /** The rest of the walk seen from inside the loops. */
  function FromKey<T>(c: Call<T>, l: nat, k: nat): Trace<T>
    requires l < |c.targets|
  {
    var t := Keys(c, l, k);
    if t.end.Stop? then t else After(t.log, Lanes(c, l + 1))
  }

  lemma AfterAfter<T>(x: seq<Slot>, y: seq<Slot>, t: Trace<T>)
    ensures After(x, After(y, t)) == After(x + y, t)
  {
    assert x + (y + t.log) == (x + y) + t.log;
  }

  /** The attempts with one key as the code ends them: a 4xx on the last key of a lane also leaves the lane. */
  function KeyTrace<T>(c: Call<T>, l: nat, k: nat): Trace<T>
    requires l < |c.targets|
  {
    var t := Attempts(c, l, k, 0);
    if t.end.NextKey? && |t.log| > 0 && c.kind(t.log[|t.log| - 1]).RotateKey? && k + 1 >= |c.targets[l].keys|
    then t.(end := NextLane) else t
  }

  /** How one more answer continues the attempts with a key. */
  lemma OneMoreAttempt<T>(c: Call<T>, l: nat, k: nat, a: nat, tried: seq<Slot>)
    requires l < |c.targets| && a < ATTEMPTS_PER_LANE
    requires After(tried, Attempts(c, l, k, a)) == Attempts(c, l, k, 0)
    ensures var p := Slot(l, k, a);
      var log := tried + [p];
      match c.kind(p)
      case Retry => After(log, Attempts(c, l, k, a + 1)) == Attempts(c, l, k, 0)
      case RotateKey =>
        KeyTrace(c, l, k) == Trace(log, if k + 1 < |c.targets[l].keys| then NextKey else NextLane)
      case SkipLane => KeyTrace(c, l, k) == Trace(log, NextLane)
      case Answer(v) => KeyTrace(c, l, k) == Trace(log, Stop(Answered(v, c.targets[l].lane.name)))
      case Crash => KeyTrace(c, l, k) == Trace(log, Stop(Crashed))
  {
    AfterAfter(tried, [Slot(l, k, a)], Attempts(c, l, k, a + 1));
  }

  lemma NoMoreAttempts<T>(c: Call<T>, l: nat, k: nat, tried: seq<Slot>)
    requires l < |c.targets|
    requires After(tried, Attempts(c, l, k, ATTEMPTS_PER_LANE)) == Attempts(c, l, k, 0)
    requires tried != [] ==> c.kind(tried[|tried| - 1]).Retry?
    ensures KeyTrace(c, l, k) == Trace(tried, NextKey)
  {
    assert tried + [] == tried;
  }

  lemma KeyTraceStep<T>(c: Call<T>, l: nat, k: nat)
    requires l < |c.targets| && k < |c.targets[l].keys|
    ensures var t := KeyTrace(c, l, k);
      FromKey(c, l, k) == match t.end
                          case NextKey => After(t.log, FromKey(c, l, k + 1))
                          case NextLane => After(t.log, Lanes(c, l + 1))
                          case Stop(_) => t
  {
    var t := Attempts(c, l, k, 0);
    if t.end.NextKey? {
      if !Keys(c, l, k + 1).end.Stop? {
        assert (t.log + Keys(c, l, k + 1).log) + Lanes(c, l + 1).log
            == t.log + (Keys(c, l, k + 1).log + Lanes(c, l + 1).log);
      }
      if k + 1 >= |c.targets[l].keys| {
        LaneIsOver(c, l, k + 1);
      }
    }
  }

  lemma LaneIsOver<T>(c: Call<T>, l: nat, k: nat)
    requires l < |c.targets| && k >= |c.targets[l].keys|
    ensures FromKey(c, l, k) == Lanes(c, l + 1)
  {
    assert [] + Lanes(c, l + 1).log == Lanes(c, l + 1).log;
  }

  lemma {:induction false} CountAllConcat(counts: map<string, nat>, targets: seq<Target>, x: seq<Slot>, y: seq<Slot>,
                                          incr: Slot -> bool)
    ensures CountAll(counts, targets, x + y, incr) == CountAll(CountAll(counts, targets, x, incr), targets, y, incr)
  {
    if y == [] {
      assert x + y == x;
    } else {
      assert (x + y)[..|x + y| - 1] == x + y[..|y| - 1];
      CountAllConcat(counts, targets, x, y[..|y| - 1], incr);
    }
  }

  lemma CountOneMore(counts: map<string, nat>, targets: seq<Target>, log: seq<Slot>, p: Slot, incr: Slot -> bool)
    requires p.lane < |targets|
    ensures CountAll(counts, targets, log + [p], incr)
         == Count(CountAll(counts, targets, log, incr), targets[p.lane].lane.budgetKey, incr(p))
  {
    assert (log + [p])[..|log|] == log;
  }

  /** The branches on one answer. */
  method Judge<T>(r: Response, parse: string -> Option<T>) returns (kind: Kind<T>)
    ensures kind == Classify(r, parse)
  {
    match r {
      case TransportError => return Retry;
      case Http(code, body) =>
        if 400 <= code < 500 {
          return RotateKey;
        }
        if code < 200 || code >= 300 {
          return if code < 500 then SkipLane else Retry;
        }
        if body.NotText? {
          return Crash;
        }
        if body.Unusable? || body.text == "" {
          return SkipLane;
        }
        var json := RepairJson.RepairJson(body.text);
        match parse(json) {
          case Some(v) => return Answer(v);
          case None => return SkipLane;
        }
    }
  }

  /** The router with the usage ledger it keeps in Redis (one day's keys). */
  class Router {
    var counts: map<string, nat>

    constructor ()
      ensures counts == map[]
    {
      counts := map[];
    }

    method Incr(b: string, taken: bool)
      modifies this
      ensures counts == Count(old(counts), b, taken)
    {
      if taken {
        counts := counts[b := (if b in counts then counts[b] else 0) + 1];
      }
    }

    method ChooseLanes(configured: seq<Target>, caps: map<string, int>, read: nat -> bool)
      returns (targets: seq<Target>)
      ensures targets == Chosen(configured, caps, counts, read)
    {
      targets := [];
      for i := 0 to |configured|
        invariant targets == Affordable(configured[..i], caps, counts, read)
      {
        assert configured[..i + 1][..i] == configured[..i];
        var b := configured[i].lane.budgetKey;
        var used := if read(i) && b in counts then counts[b] else 0;
        if b !in caps || used < caps[b] {
          targets := targets + [configured[i]];
        }
      }
      assert configured[..|configured|] == configured;
      if targets == [] {
        targets := configured;
      }
    }

    /** `complete` outside mock mode; `log` lists the requests it sent. */
    method Complete<T>(lanes: seq<Lane>, env: map<string, string>, caps: map<string, int>,
                       net: Slot -> Response, parse: string -> Option<T>, redis: Redis)
      returns (r: Outcome<T>, log: seq<Slot>)
      modifies this
      ensures Configured(lanes, env) == [] ==> r == NotConfigured && log == [] && counts == old(counts)
      ensures Configured(lanes, env) != [] ==>
                var targets := Chosen(Configured(lanes, env), caps, old(counts), redis.read);
                var t := Walk(Call(targets, KindOf(net, parse)));
                t.end.Stop? && r == t.end.outcome && log == t.log &&
                counts == CountAll(old(counts), targets, log, redis.incr)
    {
      var configured := [];
      for i := 0 to |lanes|
        invariant configured == Configured(lanes[..i], env)
        invariant counts == old(counts)
      {
        assert lanes[..i + 1][..i] == lanes[..i];
        var keys := KeysFor(Env(env, lanes[i].keyEnv));
        if keys != [] {
          configured := configured + [Target(lanes[i], keys)];
        }
      }
      assert lanes[..|lanes|] == lanes;
      log := [];
      if configured == [] {
        return NotConfigured, log;
      }
      var targets := ChooseLanes(configured, caps, redis.read);
      r, log := Send(targets, net, parse, redis.incr);
    }

    /** The loops over lanes and keys. */
    method Send<T>(targets: seq<Target>, net: Slot -> Response, parse: string -> Option<T>, incr: Slot -> bool)
      returns (r: Outcome<T>, log: seq<Slot>)
      modifies this
      ensures var t := Walk(Call(targets, KindOf(net, parse)));
              t.end.Stop? && r == t.end.outcome && log == t.log
      ensures counts == CountAll(old(counts), targets, log, incr)
    {
      ghost var c := Call(targets, KindOf(net, parse));
      log := [];
      for l := 0 to |targets|
        invariant After(log, Lanes(c, l)) == Walk(c)
        invariant counts == CountAll(old(counts), targets, log, incr)
      {
        var nextProvider, k := false, 0;
        while k < |targets[l].keys| && !nextProvider
          invariant 0 <= k <= |targets[l].keys|
          invariant After(log, if nextProvider then Lanes(c, l + 1) else FromKey(c, l, k)) == Walk(c)
          invariant counts == CountAll(old(counts), targets, log, incr)
          decreases |targets[l].keys| - k, !nextProvider
        {
          KeyTraceStep(c, l, k);
          var end, tried := TryKey(targets, l, k, net, parse, incr);
          CountAllConcat(old(counts), targets, log, tried, incr);
          AfterAfter(log, tried, FromKey(c, l, k + 1));
          AfterAfter(log, tried, Lanes(c, l + 1));
          log := log + tried;
          match end {
            case Stop(outcome) => return outcome, log;
            case NextLane => nextProvider := true;
            case NextKey => k := k + 1;
          }
        }
        if !nextProvider {
          LaneIsOver(c, l, k);
        }
      }
      return Exhausted, log;
    }

    /** The attempts with one key; `tried` lists the requests sent. */
    method TryKey<T>(targets: seq<Target>, l: nat, k: nat,
                     net: Slot -> Response, parse: string -> Option<T>, incr: Slot -> bool)
      returns (end: End<T>, tried: seq<Slot>)
      requires l < |targets| && k < |targets[l].keys|
      modifies this
      ensures Trace(tried, end) == KeyTrace(Call(targets, KindOf(net, parse)), l, k)
      ensures counts == CountAll(old(counts), targets, tried, incr)
    {
      ghost var c := Call(targets, KindOf(net, parse));
      tried := [];
      for attempt := 0 to ATTEMPTS_PER_LANE
        invariant After(tried, Attempts(c, l, k, attempt)) == Attempts(c, l, k, 0)
        invariant tried != [] ==> c.kind(tried[|tried| - 1]).Retry?
        invariant counts == CountAll(old(counts), targets, tried, incr)
      {
        var p := Slot(l, k, attempt);
        Incr(targets[l].lane.budgetKey, incr(p));
        CountOneMore(old(counts), targets, tried, p, incr);
        OneMoreAttempt(c, l, k, attempt, tried);
        tried := tried + [p];
        var kind := Judge(net(p), parse);
        match kind {
          case RotateKey =>
            if k + 1 < |targets[l].keys| {
              return NextKey, tried;
            }
            return NextLane, tried;
          case SkipLane => return NextLane, tried;
          case Answer(v) => return Stop(Answered(v, targets[l].lane.name)), tried;
          case Crash => return Stop(Crashed), tried;
          case Retry =>
        }
      }
      NoMoreAttempts(c, l, k, tried);
      return NextKey, tried;
    }
  }

  // ------------------------------------------------------------------ an exception that is not declared

  lemma {:induction false} ConfiguredHaveKeys(lanes: seq<Lane>, env: map<string, string>)
    ensures forall i :: 0 <= i < |Configured(lanes, env)| ==> Configured(lanes, env)[i].keys != []
  {
    if lanes != [] {
      ConfiguredHaveKeys(lanes[..|lanes| - 1], env);
    }
  }

  lemma {:induction false} AffordableHaveKeys(configured: seq<Target>, caps: map<string, int>, counts: map<string, nat>,
                                              read: nat -> bool)
    requires forall i :: 0 <= i < |configured| ==> configured[i].keys != []
    ensures forall i :: 0 <= i < |Affordable(configured, caps, counts, read)| ==>
      Affordable(configured, caps, counts, read)[i].keys != []
  {
    if configured != [] {
      AffordableHaveKeys(configured[..|configured| - 1], caps, counts, read);
    }
  }

  /** Any configured call crashes when its first request is answered with status 200 and content that is not text. */
  lemma NotTextCrashes<T>(lanes: seq<Lane>, env: map<string, string>, caps: map<string, int>, counts: map<string, nat>,
                          read: nat -> bool, net: Slot -> Response, parse: string -> Option<T>)
    requires Configured(lanes, env) != [] && net(Slot(0, 0, 0)) == Http(200, NotText)
    ensures Walk(Call(Chosen(Configured(lanes, env), caps, counts, read), KindOf(net, parse))).end.Stop?
    ensures Walk(Call(Chosen(Configured(lanes, env), caps, counts, read), KindOf(net, parse))).end.outcome == Crashed
  {
    var configured := Configured(lanes, env);
    ConfiguredHaveKeys(lanes, env);
    AffordableHaveKeys(configured, caps, counts, read);
    var c := Call(Chosen(configured, caps, counts, read), KindOf(net, parse));
    assert c.targets[0].keys != [];
    assert Attempts(c, 0, 0, 0) == Trace([Slot(0, 0, 0)], Stop(Crashed));
    assert Keys(c, 0, 0) == Attempts(c, 0, 0, 0);
  }

  // ------------------------------------------------------------------ budgets over many calls

  /** One call of `complete`: the lanes of its task class, the environment and the answers of the oracles. */
  datatype Request<T> =
    Request(lanes: seq<Lane>, env: map<string, string>, net: Slot -> Response, parse: string -> Option<T>, redis: Redis)

  function Rows<T>(q: Request<T>): seq<Target> {
    Configured(q.lanes, q.env)
  }

  function TargetsOf<T>(counts: map<string, nat>, caps: map<string, int>, q: Request<T>): seq<Target> {
    Chosen(Rows(q), caps, counts, q.redis.read)
  }

  /** The ledger after one call, as `Complete` leaves it. */
  function Serve<T>(counts: map<string, nat>, caps: map<string, int>, q: Request<T>): map<string, nat> {
    if Rows(q) == [] then counts
    else
      var targets := TargetsOf(counts, caps, q);
      CountAll(counts, targets, Walk(Call(targets, KindOf(q.net, q.parse))).log, q.redis.incr)
  }

  function ServeAll<T>(counts: map<string, nat>, caps: map<string, int>, qs: seq<Request<T>>): map<string, nat> {
    if qs == [] then counts
    else Serve(ServeAll(counts, caps, qs[..|qs| - 1]), caps, qs[|qs| - 1])
  }

  /** Redis answers every budget read and some configured lane is under its cap. */
  ghost predicate Healthy<T>(counts: map<string, nat>, caps: map<string, int>, q: Request<T>) {
    && (forall i: nat :: q.redis.read(i))
    && exists i :: 0 <= i < |Rows(q)| && UnderBudget(caps, counts, Rows(q)[i].lane.budgetKey, true)
  }

  ghost predicate HealthyRun<T>(counts: map<string, nat>, caps: map<string, int>, qs: seq<Request<T>>) {
    forall i :: 0 <= i < |qs| ==> HealthyAt(counts, caps, qs, i)
  }

  /** Call `i` finds the ledger as the calls before it left it. */
  ghost predicate HealthyAt<T>(counts: map<string, nat>, caps: map<string, int>, qs: seq<Request<T>>, i: nat)
    requires i < |qs|
  {
    Healthy(ServeAll(counts, caps, qs[..i]), caps, qs[i])
  }

  lemma KeyCountForOneMore(init: seq<Target>, t: Target, b: string)
    ensures KeyCountFor(init + [t], b) == KeyCountFor(init, b) + if t.lane.budgetKey == b then |t.keys| else 0
  {
    assert (init + [t])[..|init|] == init;
  }

  lemma {:induction false} AffordableKeys(configured: seq<Target>, caps: map<string, int>, counts: map<string, nat>,
                                          read: nat -> bool, b: string)
    ensures var r := Affordable(configured, caps, counts, read);
      && KeyCountFor(r, b) <= KeyCountFor(configured, b)
      && ((forall i: nat :: read(i)) && !UnderBudget(caps, counts, b, true) ==> KeyCountFor(r, b) == 0)
  {
    if configured != [] {
      var n := |configured| - 1;
      AffordableKeys(configured[..n], caps, counts, read, b);
      var r := Affordable(configured[..n], caps, counts, read);
      KeyCountForOneMore(r, configured[n], b);
      assert r + [] == r;
    }
  }

  lemma {:induction false} AffordableIsEmpty(configured: seq<Target>, caps: map<string, int>, counts: map<string, nat>,
                                             read: nat -> bool)
    ensures Affordable(configured, caps, counts, read) == [] <==>
            forall i :: 0 <= i < |configured| ==> !UnderBudget(caps, counts, configured[i].lane.budgetKey, read(i))
  {
    if configured != [] {
      var n := |configured| - 1;
      AffordableIsEmpty(configured[..n], caps, counts, read);
      assert forall i :: 0 <= i < n ==> configured[..n][i] == configured[i];
    }
  }

  /** The budget filter never leaves a configured call without a lane, and ignores the caps only when every
      configured lane reads as spent. */
  lemma ChosenIsNeverEmpty(configured: seq<Target>, caps: map<string, int>, counts: map<string, nat>, read: nat -> bool)
    ensures Chosen(configured, caps, counts, read) == [] <==> configured == []
    ensures (exists i :: 0 <= i < |configured| &&
               UnderBudget(caps, counts, configured[i].lane.budgetKey, read(i)))
            <==> Affordable(configured, caps, counts, read) != []
  {
    AffordableIsEmpty(configured, caps, counts, read);
  }

  /** One call charges a budget exactly with the counted requests it sent, and nothing once the cap is reached. */
  lemma ServeCharges<T>(counts: map<string, nat>, caps: map<string, int>, q: Request<T>, b: string)
    requires b in caps && Healthy(counts, caps, q)
    ensures Used(Serve(counts, caps, q), b) <=
            if Used(counts, b) < caps[b] then Used(counts, b) + ATTEMPTS_PER_LANE * KeyCountFor(Rows(q), b)
            else Used(counts, b)
  {
    var targets := TargetsOf(counts, caps, q);
    var c := Call(targets, KindOf(q.net, q.parse));
    AffordableKeys(Rows(q), caps, counts, q.redis.read, b);
    AffordableIsEmpty(Rows(q), caps, counts, q.redis.read);
    CountAllCharges(counts, targets, Walk(c).log, q.redis.incr, b);
    WalkIsBounded(c, b, q.redis.incr);
  }

  lemma HealthyPrefix<T>(counts: map<string, nat>, caps: map<string, int>, qs: seq<Request<T>>)
    requires HealthyRun(counts, caps, qs) && qs != []
    ensures HealthyRun(counts, caps, qs[..|qs| - 1])
    ensures Healthy(ServeAll(counts, caps, qs[..|qs| - 1]), caps, qs[|qs| - 1])
  {
    var init := qs[..|qs| - 1];
    forall i | 0 <= i < |init| ensures HealthyAt(counts, caps, init, i) {
      HealthyEarlier(counts, caps, qs, i);
    }
    assert HealthyAt(counts, caps, qs, |qs| - 1);
  }

  lemma HealthyEarlier<T>(counts: map<string, nat>, caps: map<string, int>, qs: seq<Request<T>>, i: nat)
    requires i < |qs| - 1 && HealthyAt(counts, caps, qs, i)
    ensures HealthyAt(counts, caps, qs[..|qs| - 1], i)
  {
    assert qs[..|qs| - 1][..i] == qs[..i];
  }

  /** Over any run of calls in which some configured lane is under its cap each time, a budget ends at most one
      call's worth of requests above its cap: two per key of the rows that share it. */
  lemma {:induction false} BudgetIsKept<T>(counts: map<string, nat>, caps: map<string, int>, qs: seq<Request<T>>,
                                           b: string, keys: nat)
    requires b in caps && HealthyRun(counts, caps, qs)
    requires forall i :: 0 <= i < |qs| ==> KeyCountFor(Rows(qs[i]), b) <= keys
    ensures Used(ServeAll(counts, caps, qs), b) <= Used(counts, b) ||
            Used(ServeAll(counts, caps, qs), b) <= caps[b] - 1 + ATTEMPTS_PER_LANE * keys
  {
    if qs != [] {
      var init := qs[..|qs| - 1];
      HealthyPrefix(counts, caps, qs);
      BudgetIsKept(counts, caps, init, b, keys);
      ServeCharges(ServeAll(counts, caps, init), caps, qs[|qs| - 1], b);
    }
  }
}
