/** The per-rival intel cache (app/core/intel_cache.py) over the two-tier cache: an agent runs only for the rivals that
    miss, and nobody can tell the difference, as long as the agent cannot tell apart names that share a cache key. */
module IntelCache {
  import opened Wrappers
  import Cache

  /** The hashed key `intel:<kind>:<trimmed lower-cased name>`, the hash being injective. */
  datatype Key = Key(kind: string, name: string)

  /** What an agent tells of one rival. */
  datatype Item = Item(payload: string)

  type Tiers = Cache.Tiers<Key, Item>

  /** `norm` trims and lower-cases a name; `enabled` is the feature flag. */
  datatype Config = Config(enabled: bool, hasHot: bool, norm: string -> string)

  /** The tiers at the i-th read and the i-th write of a call. A read or write that raises counts as both tiers down. */
  datatype Oracle = Oracle(read: nat -> (bool, bool), write: nat -> (bool, bool))

  /** An agent runs for a list of names. */
  type Agent = seq<string> -> seq<Item>

  // ------------------------------------------------------------------ one call, as a whole

  function KeyOf(c: Config, kind: string, name: string): Key {
    Key(kind, c.norm(name))
  }

  function Hit(c: Config, s: Tiers, kind: string, name: string, up: (bool, bool)): Option<Item> {
    Cache.Answer(s, KeyOf(c, kind, name), c.hasHot && up.0, up.1)
  }

  /** The names that hit, and the names to gather, after the read loop. */
  function Split(c: Config, s: Tiers, kind: string, names: seq<string>, o: Oracle): (map<string, Item>, seq<string>) {
    if names == [] then (map[], [])
    else
      var n := |names| - 1;
      var (reused, toGather) := Split(c, s, kind, names[..n], o);
      match Hit(c, s, kind, names[n], o.read(n))
      case Some(v) => (reused[names[n] := v], toGather)
      case None => (reused, toGather + [names[n]])
  }

  function Min(a: nat, b: nat): nat {
    if a < b then a else b
  }

  /** The fresh items by name, and the cache, after the zip loop over the first `n` pairs. */
  function Store(c: Config, s: Tiers, kind: string, toGather: seq<string>, items: seq<Item>, o: Oracle, n: nat)
    : (map<string, Item>, Tiers)
    requires n <= |toGather| && n <= |items|
  {
    if n == 0 then (map[], s)
    else
      var (byName, s') := Store(c, s, kind, toGather, items, o, n - 1);
      var (name, item) := (toGather[n - 1], items[n - 1]);
      var put := Cache.Set(KeyOf(c, kind, name), item, c.hasHot && o.write(n - 1).0, o.write(n - 1).1);
      (byName[name := item], Cache.Step(s', put))
  }

  function Collect(names: seq<string>, reused: map<string, Item>, byName: map<string, Item>): seq<Item> {
    if names == [] then []
    else
      var n := |names| - 1;
      var name := names[n];
      Collect(names[..n], reused, byName) +
      (if name in reused then [reused[name]] else if name in byName then [byName[name]] else [])
  }

  /** The names for which a call runs the agent, if it does. */
  function Asked(c: Config, s: Tiers, kind: string, names: seq<string>, o: Oracle): Option<seq<string>> {
    if !c.enabled || names == [] then Some(names)
    else
      var toGather := Split(c, s, kind, names, o).1;
      if toGather == [] then None else Some(toGather)
  }

  function Gathered(c: Config, s: Tiers, kind: string, names: seq<string>, agent: Agent, o: Oracle)
    : (Tiers, seq<Item>)
  {
    if !c.enabled || names == [] then (s, agent(names))
    else
      var (reused, toGather) := Split(c, s, kind, names, o);
      var items := if toGather != [] then agent(toGather) else [];
      var (byName, s') := Store(c, s, kind, toGather, items, o, Min(|toGather|, |items|));
      (s', Collect(names, reused, byName))
  }

  // ------------------------------------------------------------------ one call, as the source runs it

  class GatherNode {
    const config: Config
    const cache: Cache.TwoTier<Key, Item>

    constructor (config: Config)
      ensures this.config == config && Valid() && fresh(cache) && Cache.EmptyAt(cache.State())
    {
      this.config := config;
      cache := new Cache.TwoTier(config.hasHot);
    }

    predicate Valid() {
      cache.hasHot == config.hasHot
    }

    /** The read loop. */
    method ReadAll(kind: string, names: seq<string>, o: Oracle) returns (reused: map<string, Item>, toGather: seq<string>)
      requires Valid()
      ensures (reused, toGather) == Split(config, cache.State(), kind, names, o)
    {
      reused, toGather := map[], [];
      for i := 0 to |names|
        invariant (reused, toGather) == Split(config, cache.State(), kind, names[..i], o)
      {
        assert names[..i + 1][..i] == names[..i];
        var hit := cache.Get(KeyOf(config, kind, names[i]), o.read(i).0, o.read(i).1);
        if hit.Some? {
          reused := reused[names[i] := hit.value];
        } else {
          toGather := toGather + [names[i]];
        }
      }
      assert names[..|names|] == names;
    }

    /** The zip loop. */
    method StoreAll(kind: string, toGather: seq<string>, items: seq<Item>, o: Oracle) returns (byName: map<string, Item>)
      requires Valid()
      modifies cache
      ensures (byName, cache.State())
           == Store(config, old(cache.State()), kind, toGather, items, o, Min(|toGather|, |items|))
    {
      byName := map[];
      for i := 0 to Min(|toGather|, |items|)
        invariant (byName, cache.State()) == Store(config, old(cache.State()), kind, toGather, items, o, i)
      {
        byName := byName[toGather[i] := items[i]];
        cache.Put(KeyOf(config, kind, toGather[i]), items[i], o.write(i).0, o.write(i).1);
      }
    }

    /** `gather`. */
    method Gather(kind: string, names: seq<string>, agent: Agent, o: Oracle) returns (out: seq<Item>)
      requires Valid()
      modifies cache
      ensures (cache.State(), out) == Gathered(config, old(cache.State()), kind, names, agent, o)
    {
      if !config.enabled || names == [] {
        return agent(names);
      }
      var reused, toGather := ReadAll(kind, names, o);
      var gathered := [];
      if toGather != [] {
        gathered := agent(toGather);
      }
      var byName := StoreAll(kind, toGather, gathered, o);
      out := [];
      for i := 0 to |names|
        invariant out == Collect(names[..i], reused, byName)
      {
        assert names[..i + 1][..i] == names[..i];
        if names[i] in reused {
          out := out + [reused[names[i]]];
        } else if names[i] in byName {
          out := out + [byName[names[i]]];
        }
      }
      assert names[..|names|] == names;
    }
  }

  // ------------------------------------------------------------------ agreement with the agent

  /** What the agents tell of each rival, for each kind of intel. */
  type Teller = (string, string) -> Item

  function Told(f: Teller, kind: string, names: seq<string>): seq<Item> {
    seq(|names|, i requires 0 <= i < |names| => f(kind, names[i]))
  }

  /** The agents' contract: one item for each name, in order. */
  ghost predicate Full(f: Teller, kind: string, agent: Agent) {
    forall names :: agent(names) == Told(f, kind, names)
  }

  /** What the zip needs: each item of an answer that it pairs is the one of its name. Items may be missing at the end,
      and items beyond the names are ignored. */
  predicate AlignedAt(f: Teller, kind: string, names: seq<string>, items: seq<Item>) {
    forall i :: 0 <= i < |names| && i < |items| ==> items[i] == f(kind, names[i])
  }

  /** The agent cannot tell apart names that share a key. */
  ghost predicate Normal(c: Config, f: Teller) {
    forall kind, a, b :: c.norm(a) == c.norm(b) ==> f(kind, a) == f(kind, b)
  }

  /** Everything cached is what the agent tells. */
  ghost predicate Agrees(c: Config, f: Teller, s: Tiers) {
    forall kind, name :: var k := KeyOf(c, kind, name);
      (k in s.hot ==> s.hot[k] == f(kind, name)) && (k in s.cold ==> s.cold[k].value == f(kind, name))
  }

  /** Some read of the name missed. */
  ghost predicate Missed(c: Config, s: Tiers, kind: string, names: seq<string>, o: Oracle, name: string) {
    exists i :: 0 <= i < |names| && names[i] == name && Hit(c, s, kind, name, o.read(i)) == None
  }

  lemma MissedBefore(c: Config, s: Tiers, kind: string, names: seq<string>, o: Oracle, name: string, n: nat)
    requires n <= |names| && Missed(c, s, kind, names[..n], o, name)
    ensures Missed(c, s, kind, names, o, name)
  {
    var i :| 0 <= i < |names[..n]| && names[..n][i] == name && Hit(c, s, kind, name, o.read(i)) == None;
    assert names[i] == name;
  }

  lemma {:induction false} SplitTells(c: Config, f: Teller, s: Tiers, kind: string, names: seq<string>, o: Oracle)
    requires Agrees(c, f, s)
    ensures var (reused, toGather) := Split(c, s, kind, names, o);
      && (forall n :: n in reused ==> reused[n] == f(kind, n))
      && (forall n :: n in names <==> n in reused || n in toGather)
      && (forall n :: n in toGather ==> Missed(c, s, kind, names, o, n))
  {
    if names != [] {
      var n := |names| - 1;
      SplitTells(c, f, s, kind, names[..n], o);
      assert names == names[..n] + [names[n]];
      forall m | m in Split(c, s, kind, names[..n], o).1 ensures Missed(c, s, kind, names, o, m) {
        MissedBefore(c, s, kind, names, o, m, n);
      }
    }
  }

  lemma PutAgrees(c: Config, f: Teller, s: Tiers, kind: string, name: string, hotOk: bool, coldOk: bool)
    requires Normal(c, f) && Agrees(c, f, s)
    ensures Agrees(c, f, Cache.Step(s, Cache.Set(KeyOf(c, kind, name), f(kind, name), hotOk, coldOk)))
  {
  }

  /** One pair of the zip loop. */
  lemma StoreOneMore(f: Teller, kind: string, toGather: seq<string>, items: seq<Item>, byName: map<string, Item>, n: nat)
    requires AlignedAt(f, kind, toGather, items) && 0 < n <= |items| && n <= |toGather|
    requires forall m :: m in byName <==> m in toGather[..n - 1]
    requires forall m :: m in byName ==> byName[m] == f(kind, m)
    ensures items[n - 1] == f(kind, toGather[n - 1])
    ensures var byName' := byName[toGather[n - 1] := items[n - 1]];
      && (forall m :: m in byName' <==> m in toGather[..n])
      && (forall m :: m in byName' ==> byName'[m] == f(kind, m))
  {
    assert toGather[..n] == toGather[..n - 1] + [toGather[n - 1]];
  }

  lemma {:induction false} StoreTells(c: Config, f: Teller, s: Tiers, kind: string, toGather: seq<string>,
                                      items: seq<Item>, o: Oracle, n: nat)
    requires Normal(c, f) && Agrees(c, f, s)
    requires AlignedAt(f, kind, toGather, items) && n <= |items| && n <= |toGather|
    ensures var (byName, s') := Store(c, s, kind, toGather, items, o, n);
      && Agrees(c, f, s')
      && (forall m :: m in byName <==> m in toGather[..n])
      && (forall m :: m in byName ==> byName[m] == f(kind, m))
  {
    if n > 0 {
      StoreTells(c, f, s, kind, toGather, items, o, n - 1);
      var (byName, s') := Store(c, s, kind, toGather, items, o, n - 1);
      StoreOneMore(f, kind, toGather, items, byName, n);
      PutAgrees(c, f, s', kind, toGather[n - 1], c.hasHot && o.write(n - 1).0, o.write(n - 1).1);
    }
  }

  /** The items of the names that are served, in order. */
  function ToldOf(f: Teller, kind: string, names: seq<string>, served: set<string>): seq<Item> {
    if names == [] then []
    else
      var n := |names| - 1;
      ToldOf(f, kind, names[..n], served) + (if names[n] in served then [f(kind, names[n])] else [])
  }

  lemma {:induction false} CollectTells(f: Teller, kind: string, names: seq<string>, reused: map<string, Item>,
                                           byName: map<string, Item>)
    requires forall n :: n in reused ==> reused[n] == f(kind, n)
    requires forall n :: n in byName ==> byName[n] == f(kind, n)
    ensures Collect(names, reused, byName) == ToldOf(f, kind, names, reused.Keys + byName.Keys)
  {
    if names != [] {
      CollectTells(f, kind, names[..|names| - 1], reused, byName);
    }
  }

  lemma {:induction false} ServedAll(f: Teller, kind: string, names: seq<string>, served: set<string>)
    requires forall n :: n in names ==> n in served
    ensures ToldOf(f, kind, names, served) == Told(f, kind, names)
  {
    if names != [] {
      var n := |names| - 1;
      assert names == names[..n] + [names[n]];
      ServedAll(f, kind, names[..n], served);
      assert Told(f, kind, names) == Told(f, kind, names[..n]) + [f(kind, names[n])];
    }
  }

  /** The rivals that a call serves when the agent returns items for the first `n` names only. */
  function Served(c: Config, s: Tiers, kind: string, names: seq<string>, o: Oracle, n: nat): set<string>
    requires n <= |Split(c, s, kind, names, o).1|
  {
    var (reused, toGather) := Split(c, s, kind, names, o);
    reused.Keys + set m | m in toGather[..n]
  }

  /** How many pairs a call zips. */
  function Zipped(toGather: seq<string>, agent: Agent): nat {
    if toGather != [] then Min(|toGather|, |agent(toGather)|) else 0
  }

  /** A short return drops rivals but never gives one the item of another: as long as each item it pairs is the one of its
      name, the result holds, in order, the agent's own item for each rival served, and the cache still agrees. */
  lemma ShortReturnsDrop(c: Config, f: Teller, s: Tiers, kind: string, names: seq<string>, agent: Agent, o: Oracle)
    requires c.enabled && names != [] && Normal(c, f) && Agrees(c, f, s)
    requires var toGather := Split(c, s, kind, names, o).1;
      toGather != [] ==> AlignedAt(f, kind, toGather, agent(toGather))
    ensures var n := Zipped(Split(c, s, kind, names, o).1, agent);
      var (s', out) := Gathered(c, s, kind, names, agent, o);
      && Agrees(c, f, s')
      && out == ToldOf(f, kind, names, Served(c, s, kind, names, o, n))
  {
    var (reused, toGather) := Split(c, s, kind, names, o);
    SplitTells(c, f, s, kind, names, o);
    var items := if toGather != [] then agent(toGather) else [];
    var n := Min(|toGather|, |items|);
    StoreTells(c, f, s, kind, toGather, items, o, n);
    var byName := Store(c, s, kind, toGather, items, o, n).0;
    CollectTells(f, kind, names, reused, byName);
    assert reused.Keys + byName.Keys == Served(c, s, kind, names, o, n);
  }

  lemma GatherTells(c: Config, f: Teller, s: Tiers, kind: string, names: seq<string>, agent: Agent, o: Oracle)
    requires Normal(c, f) && Agrees(c, f, s) && Full(f, kind, agent)
    ensures Gathered(c, s, kind, names, agent, o).1 == Told(f, kind, names)
    ensures Agrees(c, f, Gathered(c, s, kind, names, agent, o).0)
  {
    if c.enabled && names != [] {
      var toGather := Split(c, s, kind, names, o).1;
      assert agent(toGather) == Told(f, kind, toGather);
      ShortReturnsDrop(c, f, s, kind, names, agent, o);
      SplitTells(c, f, s, kind, names, o);
      var n := Zipped(toGather, agent);
      assert toGather[..n] == toGather;
      ServedAll(f, kind, names, Served(c, s, kind, names, o, n));
    } else {
      assert agent(names) == Told(f, kind, names);
    }
  }

  // ------------------------------------------------------------------ over any history

  /** Calls of any kind, and whatever befalls the tiers between them except foreign writes. */
  datatype Event = Call(kind: string, names: seq<string>, agent: Agent, o: Oracle) | Weather(op: Cache.Op<Key, Item>)

  ghost predicate Fair(f: Teller, e: Event) {
    match e
    case Call(kind, _, agent, _) => Full(f, kind, agent)
    case Weather(op) => !op.Set?
  }

  function After(c: Config, s: Tiers, e: Event): Tiers {
    match e
    case Call(kind, names, agent, o) => Gathered(c, s, kind, names, agent, o).0
    case Weather(op) => Cache.Step(s, op)
  }

  function History(c: Config, s: Tiers, events: seq<Event>): Tiers {
    if events == [] then s else After(c, History(c, s, events[..|events| - 1]), events[|events| - 1])
  }

  lemma {:induction false} HistoryAgrees(c: Config, f: Teller, s: Tiers, events: seq<Event>)
    requires Normal(c, f) && Agrees(c, f, s) && forall i :: 0 <= i < |events| ==> Fair(f, events[i])
    ensures Agrees(c, f, History(c, s, events))
  {
    if events != [] {
      var n := |events| - 1;
      HistoryAgrees(c, f, s, events[..n]);
      assert Fair(f, events[n]);
      match events[n] {
        case Call(kind, names, agent, o) => GatherTells(c, f, History(c, s, events[..n]), kind, names, agent, o);
        case Weather(op) =>
      }
    }
  }

  /** After every history, every call yields what the agent alone would have yielded. */
  ghost predicate Transparent(c: Config, f: Teller, s: Tiers) {
    forall events: seq<Event>, kind, names, agent: Agent, o: Oracle ::
      (forall i :: 0 <= i < |events| ==> Fair(f, events[i])) && Full(f, kind, agent) ==>
      Gathered(c, History(c, s, events), kind, names, agent, o).1 == Told(f, kind, names)
  }

  function Whole(f: Teller, kind: string): Agent {
    (names: seq<string>) => Told(f, kind, names)
  }

  const CALM := Oracle((i: nat) => (true, true), (i: nat) => (true, true))

  /** With the cache on, reuse is invisible if and only if the agent tells the same of any two names that differ only in
      letter case and surrounding blanks. */
  lemma TransparentIffNormal(c: Config, f: Teller, s: Tiers)
    requires c.enabled && Cache.EmptyAt(s)
    ensures Transparent(c, f, s) <==> Normal(c, f)
  {
    if Normal(c, f) {
      forall events: seq<Event>, kind, names, agent: Agent, o: Oracle |
        (forall i :: 0 <= i < |events| ==> Fair(f, events[i])) && Full(f, kind, agent)
        ensures Gathered(c, History(c, s, events), kind, names, agent, o).1 == Told(f, kind, names)
      {
        HistoryAgrees(c, f, s, events);
        GatherTells(c, f, History(c, s, events), kind, names, agent, o);
      }
    }
    if Transparent(c, f, s) {
      forall kind, a, b | c.norm(a) == c.norm(b) ensures f(kind, a) == f(kind, b) {
        ReuseShows(c, f, s, kind, a, b);
      }
    }
  }

  lemma SplitOne(c: Config, s: Tiers, kind: string, name: string, o: Oracle)
    ensures Split(c, s, kind, [name], o) ==
      match Hit(c, s, kind, name, o.read(0)) case Some(v) => (map[name := v], []) case None => (map[], [name])
  {
    assert [name][..0] == [];
    assert Split(c, s, kind, [name][..0], o) == (map[], []);
    assert [] + [name] == [name];
  }

  lemma StoreOne(c: Config, s: Tiers, kind: string, name: string, item: Item, o: Oracle)
    ensures Store(c, s, kind, [name], [item], o, 1) ==
      (map[name := item], Cache.Step(s, Cache.Set(KeyOf(c, kind, name), item, c.hasHot && o.write(0).0, o.write(0).1)))
  {
    assert Store(c, s, kind, [name], [item], o, 0) == (map[], s);
  }

  lemma OneEvent(c: Config, s: Tiers, e: Event)
    ensures History(c, s, [e]) == After(c, s, e)
  {
    assert [e][..0] == [];
    assert History(c, s, [e][..0]) == s;
  }

  lemma CollectOne(name: string, reused: map<string, Item>, byName: map<string, Item>)
    requires name in reused
    ensures Collect([name], reused, byName) == [reused[name]]
  {
    assert [name][..0] == [];
  }

  /** The second of two calls yields the item of the first when the names share a key. */
  lemma ReuseShows(c: Config, f: Teller, s: Tiers, kind: string, a: string, b: string)
    requires c.enabled && Cache.EmptyAt(s) && c.norm(a) == c.norm(b) && Transparent(c, f, s)
    ensures f(kind, a) == f(kind, b)
  {
    var agent := Whole(f, kind);
    var call := Call(kind, [a], agent, CALM);
    var s' := History(c, s, [call]);
    OneEvent(c, s, call);
    SplitOne(c, s, kind, a, CALM);
    assert agent([a]) == [f(kind, a)];
    StoreOne(c, s, kind, a, f(kind, a), CALM);
    assert s' == Gathered(c, s, kind, [a], agent, CALM).0 == Store(c, s, kind, [a], [f(kind, a)], CALM, 1).1;
    assert s' == Cache.Step(s, Cache.Set(KeyOf(c, kind, a), f(kind, a), c.hasHot && true, true));
    SplitOne(c, s', kind, b, CALM);
    CollectOne(b, map[b := f(kind, a)], map[]);
    assert Gathered(c, s', kind, [b], agent, CALM).1 == [f(kind, a)];
    assert Told(f, kind, [b]) == [f(kind, b)];
    assert Fair(f, call);
  }

  /** The agent runs only for names that missed: each one asked for is one of the names, at a place where the read missed;
      and when every read hits it does not run at all. */
  lemma AgentRunsOnMisses(c: Config, f: Teller, s: Tiers, kind: string, names: seq<string>, o: Oracle)
    requires c.enabled && names != [] && Agrees(c, f, s)
    ensures match Asked(c, s, kind, names, o)
      case Some(asked) => asked != [] && forall n :: n in asked ==> n in names && Missed(c, s, kind, names, o, n)
      case None => forall n :: n in names ==> n in Split(c, s, kind, names, o).0
  {
    SplitTells(c, f, s, kind, names, o);
  }

  // ------------------------------------------------------------------ when a return mismatches

  /** No two of the names share a key. */
  ghost predicate DistinctKeys(c: Config, names: seq<string>) {
    forall i, j :: 0 <= i < j < |names| ==> c.norm(names[i]) != c.norm(names[j])
  }

  lemma {:induction false} AllMiss(c: Config, s: Tiers, kind: string, names: seq<string>, o: Oracle)
    requires Cache.EmptyAt(s)
    ensures Split(c, s, kind, names, o) == (map[], names)
  {
    if names != [] {
      var n := |names| - 1;
      AllMiss(c, s, kind, names[..n], o);
      assert names == names[..n] + [names[n]];
    }
  }

  /** Every pair lands under the key of its name, in Postgres and by name. */
  lemma {:induction false} StoreFiles(c: Config, s: Tiers, kind: string, names: seq<string>, items: seq<Item>, n: nat)
    requires DistinctKeys(c, names) && n <= |names| && n <= |items|
    ensures var (byName, s') := Store(c, s, kind, names, items, CALM, n);
      forall i :: 0 <= i < n ==>
        && names[i] in byName && byName[names[i]] == items[i]
        && KeyOf(c, kind, names[i]) in s'.cold && s'.cold[KeyOf(c, kind, names[i])].value == items[i]
  {
    if n > 0 {
      StoreFiles(c, s, kind, names, items, n - 1);
      assert forall i :: 0 <= i < n - 1 ==> c.norm(names[i]) != c.norm(names[n - 1]);
    }
  }

  /** Whatever an agent answers for names with distinct keys, from an empty cache: the cache agrees with the agent
      afterwards if and only if each item that the zip pairs is the one of its name. */
  lemma AgreesIffAligned(c: Config, f: Teller, s: Tiers, kind: string, names: seq<string>, agent: Agent)
    requires c.enabled && names != [] && Normal(c, f) && Cache.EmptyAt(s) && DistinctKeys(c, names)
    ensures Agrees(c, f, Gathered(c, s, kind, names, agent, CALM).0) <==> AlignedAt(f, kind, names, agent(names))
  {
    var items := agent(names);
    var n := Min(|names|, |items|);
    AllMiss(c, s, kind, names, CALM);
    var s' := Gathered(c, s, kind, names, agent, CALM).0;
    assert s' == Store(c, s, kind, names, items, CALM, n).1;
    if AlignedAt(f, kind, names, items) {
      ShortReturnsDrop(c, f, s, kind, names, agent, CALM);
    }
    if Agrees(c, f, s') {
      StoreFiles(c, s, kind, names, items, n);
      forall i | 0 <= i < |names| && i < |items| ensures items[i] == f(kind, names[i]) {
        assert KeyOf(c, kind, names[i]) in s'.cold && s'.cold[KeyOf(c, kind, names[i])].value == items[i];
      }
    }
  }

  /** The zip trusts the order: an agent that leaves out the first of two rivals has the second one's item filed under
      the first, and the next call for the first rival yields it. */
  lemma GapMismatches(c: Config, f: Teller, s: Tiers, kind: string, a: string, b: string, agent: Agent)
    requires c.enabled && Cache.EmptyAt(s) && agent([a, b]) == [f(kind, b)]
    ensures var s' := Gathered(c, s, kind, [a, b], agent, CALM).0;
      Gathered(c, s', kind, [a], Whole(f, kind), CALM).1 == [f(kind, b)]
  {
    var (reused, toGather) := Split(c, s, kind, [a, b], CALM);
    assert [a, b][..1] == [a];
    SplitOne(c, s, kind, a, CALM);
    assert toGather == [a, b];
    assert Store(c, s, kind, [a, b], [f(kind, b)], CALM, 0) == (map[], s);
    var s' := Gathered(c, s, kind, [a, b], agent, CALM).0;
    assert s' == Store(c, s, kind, [a, b], [f(kind, b)], CALM, 1).1;
    assert Hit(c, s', kind, a, (true, true)) == Some(f(kind, b));
    SplitOne(c, s', kind, a, CALM);
    CollectOne(a, map[a := f(kind, b)], map[]);
  }
}
