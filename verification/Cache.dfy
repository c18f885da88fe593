/** The two-tier cache (app/core/cache.py): a hot tier (Redis, or Upstash when there is no Redis, or none at all) over
    the Postgres copy, which ignores rows older than seven days (app/db/repository.py). Either tier may fail, lose
    entries, or take a write that it reports as failed. */
module Cache {
  import opened Wrappers

  /** Postgres rows carry the time of their last write. */
  datatype Stamped<V> = Stamped(value: V, at: int)

  datatype Tiers<K, V> = Tiers(hot: map<K, V>, cold: map<K, Stamped<V>>, now: int)

  const MAX_AGE := 7 * 86400

  predicate FreshRow<V>(row: Stamped<V>, now: int) {
    row.at > now - MAX_AGE
  }

  /** `cache_get`, with each tier up or down. */
  function Answer<K, V>(s: Tiers<K, V>, k: K, hotUp: bool, coldUp: bool): Option<V> {
    if hotUp && k in s.hot then Some(s.hot[k])
    else if coldUp && k in s.cold && FreshRow(s.cold[k], s.now) then Some(s.cold[k].value)
    else None
  }

  datatype Op<K, V> = Set(k: K, v: V, hotOk: bool, coldOk: bool) // a write, and the tiers it reached
                    | Expire(k: K) | Flush                       // the hot tier loses one entry, or all
                    | Tick(seconds: nat)

  function Step<K, V>(s: Tiers<K, V>, op: Op<K, V>): Tiers<K, V> {
    match op
    case Set(k, v, hotOk, coldOk) =>
      s.(hot := if hotOk then s.hot[k := v] else s.hot,
         cold := if coldOk then s.cold[k := Stamped(v, s.now)] else s.cold)
    case Expire(k) => s.(hot := s.hot - {k})
    case Flush => s.(hot := map[])
    case Tick(seconds) => s.(now := s.now + seconds)
  }

  function Run<K, V>(s: Tiers<K, V>, ops: seq<Op<K, V>>): Tiers<K, V> {
    if ops == [] then s else Step(Run(s, ops[..|ops| - 1]), ops[|ops| - 1])
  }

  /** The module with its two stores. Without a hot tier, `hasHot` is false and its operations do nothing. */
  class TwoTier<K(==), V> {
    const hasHot: bool
    var hot: map<K, V>
    var cold: map<K, Stamped<V>>
    var now: int

    constructor (hasHot: bool)
      ensures this.hasHot == hasHot && hot == map[] && cold == map[]
    {
      this.hasHot := hasHot;
      hot, cold := map[], map[];
    }

    function State(): Tiers<K, V>
      reads this
    {
      Tiers(hot, cold, now)
    }

    method Get(k: K, hotUp: bool, coldUp: bool) returns (r: Option<V>)
      ensures r == Answer(State(), k, hasHot && hotUp, coldUp)
    {
      if hasHot && hotUp {
        if k in hot {
          return Some(hot[k]);
        }
      }
      if !coldUp {
        return None;
      }
      if k in cold && FreshRow(cold[k], now) {
        return Some(cold[k].value);
      }
      return None;
    }

    method Put(k: K, v: V, hotOk: bool, coldOk: bool)
      modifies this
      ensures State() == Step(old(State()), Set(k, v, hasHot && hotOk, coldOk))
    {
      if hasHot && hotOk {
        hot := hot[k := v];
      }
      if coldOk {
        cold := cold[k := Stamped(v, now)];
      }
    }
  }

  // ------------------------------------------------------------------ what a read can yield

  /** The last value written under `k` that reached a tier. */
  ghost function LastHot<K, V>(ops: seq<Op<K, V>>, k: K): Option<V> {
    if ops == [] then None
    else
      var op := ops[|ops| - 1];
      if op.Set? && op.k == k && op.hotOk then Some(op.v) else LastHot(ops[..|ops| - 1], k)
  }

  ghost function LastCold<K, V>(ops: seq<Op<K, V>>, k: K): Option<V> {
    if ops == [] then None
    else
      var op := ops[|ops| - 1];
      if op.Set? && op.k == k && op.coldOk then Some(op.v) else LastCold(ops[..|ops| - 1], k)
  }

  /** The last write under `k`, wherever it went. */
  ghost function LastSet<K, V>(ops: seq<Op<K, V>>, k: K): Option<Op<K, V>> {
    if ops == [] then None
    else
      var op := ops[|ops| - 1];
      if op.Set? && op.k == k then Some(op) else LastSet(ops[..|ops| - 1], k)
  }

  ghost predicate EmptyAt<K, V>(s: Tiers<K, V>) {
    s.hot == map[] && s.cold == map[]
  }

  lemma {:induction false} TiersHoldLast<K, V>(s: Tiers<K, V>, ops: seq<Op<K, V>>, k: K)
    requires EmptyAt(s)
    ensures var s' := Run(s, ops);
      && (k in s'.hot ==> LastHot(ops, k) == Some(s'.hot[k]))
      && (if k in s'.cold then LastCold(ops, k) == Some(s'.cold[k].value) else LastCold(ops, k) == None)
  {
    if ops != [] {
      TiersHoldLast(s, ops[..|ops| - 1], k);
    }
  }

  lemma {:induction false} LastWasSet<K, V>(ops: seq<Op<K, V>>, k: K)
    ensures LastHot(ops, k).Some? ==> exists i :: 0 <= i < |ops| && ops[i].Set? && ops[i].k == k && ops[i].hotOk
                                                  && ops[i].v == LastHot(ops, k).value
    ensures LastCold(ops, k).Some? ==> exists i :: 0 <= i < |ops| && ops[i].Set? && ops[i].k == k && ops[i].coldOk
                                                   && ops[i].v == LastCold(ops, k).value
  {
    if ops != [] {
      var n := |ops| - 1;
      LastWasSet(ops[..n], k);
      if LastHot(ops[..n], k).Some? {
        var i :| 0 <= i < n && ops[..n][i].Set? && ops[..n][i].k == k && ops[..n][i].hotOk
                 && ops[..n][i].v == LastHot(ops[..n], k).value;
        assert ops[i] == ops[..n][i];
      }
      if LastCold(ops[..n], k).Some? {
        var i :| 0 <= i < n && ops[..n][i].Set? && ops[..n][i].k == k && ops[..n][i].coldOk
                 && ops[..n][i].v == LastCold(ops[..n], k).value;
        assert ops[i] == ops[..n][i];
      }
    }
  }

  /** After any history, a read yields a miss, or the last value that reached the hot tier, or the last value that reached
      Postgres; the latter only when the row is fresh and the hot tier did not answer. */
  lemma ReadYieldsLast<K, V>(s: Tiers<K, V>, ops: seq<Op<K, V>>, k: K, hotUp: bool, coldUp: bool)
    requires EmptyAt(s)
    ensures var s', r := Run(s, ops), Answer(Run(s, ops), k, hotUp, coldUp);
      && (r.Some? ==> if hotUp && k in s'.hot then r == LastHot(ops, k) else coldUp && r == LastCold(ops, k))
      && (r.Some? ==> exists i :: 0 <= i < |ops| && ops[i].Set? && ops[i].k == k && ops[i].v == r.value)
  {
    TiersHoldLast(s, ops, k);
    LastWasSet(ops, k);
  }

  lemma {:induction false} LastOfAll<K, V>(ops: seq<Op<K, V>>, k: K)
    requires LastSet(ops, k).Some?
    ensures LastSet(ops, k).value.Set?
    ensures LastSet(ops, k).value.hotOk ==> LastHot(ops, k) == Some(LastSet(ops, k).value.v)
    ensures LastSet(ops, k).value.coldOk ==> LastCold(ops, k) == Some(LastSet(ops, k).value.v)
  {
    var op := ops[|ops| - 1];
    if !(op.Set? && op.k == k) {
      LastOfAll(ops[..|ops| - 1], k);
    }
  }

  /** If the last write under a key reached both tiers, a read yields its value or a miss. */
  lemma LastSetOrMiss<K, V>(s: Tiers<K, V>, ops: seq<Op<K, V>>, k: K, hotUp: bool, coldUp: bool)
    requires EmptyAt(s)
    requires LastSet(ops, k).Some? && LastSet(ops, k).value.Set? && LastSet(ops, k).value.hotOk && LastSet(ops, k).value.coldOk
    ensures var r := Answer(Run(s, ops), k, hotUp, coldUp); r == None || r == Some(LastSet(ops, k).value.v)
  {
    ReadYieldsLast(s, ops, k, hotUp, coldUp);
    LastOfAll(ops, k);
  }

  /** No row was written after now. */
  ghost predicate InThePast<K, V>(s: Tiers<K, V>) {
    forall k :: k in s.cold ==> s.cold[k].at <= s.now
  }

  /** Later operations of which none reaches Postgres under `k`. */
  ghost predicate LeavesAlone<K, V>(ops: seq<Op<K, V>>, k: K) {
    forall i :: 0 <= i < |ops| && ops[i].Set? && ops[i].k == k ==> !ops[i].coldOk
  }

  function Elapsed<K, V>(ops: seq<Op<K, V>>): nat {
    if ops == [] then 0
    else
      var last := ops[|ops| - 1];
      Elapsed(ops[..|ops| - 1]) + (if last.Tick? then last.seconds else 0)
  }

  lemma {:induction false} RowStays<K, V>(s: Tiers<K, V>, ops: seq<Op<K, V>>, k: K)
    requires LeavesAlone(ops, k)
    ensures var s' := Run(s, ops);
      && s'.now == s.now + Elapsed(ops)
      && (k in s'.cold <==> k in s.cold) && (k in s.cold ==> s'.cold[k] == s.cold[k])
  {
    if ops != [] {
      var n := |ops| - 1;
      assert forall i :: 0 <= i < n ==> ops[..n][i] == ops[i];
      RowStays(s, ops[..n], k);
    }
  }

  /** Staleness is bounded: once seven days have passed since a state, and no write under the key has reached Postgres, a
      read that the hot tier does not answer is a miss. */
  lemma AgedIsMissed<K, V>(s: Tiers<K, V>, ops: seq<Op<K, V>>, k: K, hotUp: bool, coldUp: bool)
    requires InThePast(s) && LeavesAlone(ops, k) && Elapsed(ops) >= 7 * 24 * 3600
    ensures !hotUp || k !in Run(s, ops).hot ==> Answer(Run(s, ops), k, hotUp, coldUp) == None
  {
    RowStays(s, ops, k);
  }

  /** And a row is served until then: a value that reached Postgres less than seven days ago, and that no later write has
      reached it after, is what a read yields when the hot tier does not answer. */
  lemma FreshIsServed<K, V>(s: Tiers<K, V>, k: K, v: V, hotOk: bool, ops: seq<Op<K, V>>, hotUp: bool)
    requires LeavesAlone(ops, k) && Elapsed(ops) < 7 * 24 * 3600
    ensures var s' := Run(Step(s, Set(k, v, hotOk, true)), ops);
      !hotUp || k !in s'.hot ==> Answer(s', k, hotUp, true) == Some(v)
  {
    RowStays(Step(s, Set(k, v, hotOk, true)), ops, k);
  }

  /** Later operations that leave the hot entry of `k` alone. */
  ghost predicate LeavesHotAlone<K, V>(ops: seq<Op<K, V>>, k: K) {
    forall i :: 0 <= i < |ops| ==> !ops[i].Flush? && !(ops[i].Expire? && ops[i].k == k) &&
                                   !(ops[i].Set? && ops[i].k == k && ops[i].hotOk)
  }

  /** The hot tier answers first: a value that reached it, and that it has kept, is what a read yields. */
  lemma {:induction false} HotIsServed<K, V>(s: Tiers<K, V>, k: K, v: V, coldOk: bool, ops: seq<Op<K, V>>, coldUp: bool)
    requires LeavesHotAlone(ops, k)
    ensures var s' := Run(Step(s, Set(k, v, true, coldOk)), ops);
      k in s'.hot && Answer(s', k, true, coldUp) == Some(v)
  {
    if ops != [] {
      var n := |ops| - 1;
      assert forall i :: 0 <= i < n ==> ops[..n][i] == ops[i];
      HotIsServed(s, k, v, coldOk, ops[..n], coldUp);
    }
  }

  /** Some read, with either tier up or down, yields something else than `v`. */
  predicate CanBeStale<K, V(==)>(s: Tiers<K, V>, k: K, v: V) {
    exists hotUp: bool, coldUp: bool :: var r := Answer(s, k, hotUp, coldUp); r != None && r != Some(v)
  }

  /** A write that missed a tier can be followed by a stale read exactly when the tier it missed still holds another value
      for the key (in Postgres: a fresh one). */
  lemma StaleIff<K, V>(s: Tiers<K, V>, k: K, v: V, hotOk: bool, coldOk: bool)
    ensures CanBeStale(Step(s, Set(k, v, hotOk, coldOk)), k, v)
       <==> (!hotOk && k in s.hot && s.hot[k] != v)
            || (!coldOk && k in s.cold && FreshRow(s.cold[k], s.now) && s.cold[k].value != v)
  {
    var s' := Step(s, Set(k, v, hotOk, coldOk));
    if !hotOk && k in s.hot && s.hot[k] != v {
      assert Answer(s', k, true, false) == Some(s.hot[k]);
    }
    if !coldOk && k in s.cold && FreshRow(s.cold[k], s.now) && s.cold[k].value != v {
      assert Answer(s', k, false, true) == Some(s.cold[k].value);
    }
  }
}
