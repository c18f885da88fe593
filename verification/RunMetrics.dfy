/** The live counters of a run (app/core/lifecycle.py, the emitter): counts under a lock, throttled writes of snapshots
    outside it, and a final flush that hands the totals on to the next phase. Threads interleave at lock boundaries. */
module RunMetrics {
  import opened Wrappers
  import S = Stats

  /** The counters: router attempts in all and for each lane, and the other header figures. No lane bears the name of a
      header figure. */
  datatype Metrics = Metrics(calls: nat, lanes: map<string, nat>, searches: nat, hits: nat, signals: nat, rows: nat)

  const ZERO := Metrics(0, map[], 0, 0, 0, 0)

  /** The process-wide counters of the search module. */
  datatype Global = Global(searches: nat, hits: nat)

  /** What an event tells the counters. */
  datatype Told = Attempt(lane: string) | Search(now: Global) | Fused(signals: nat, rows: nat) | Other

  const GAP := 1.5

  function LaneCount(m: Metrics, lane: string): nat {
    if lane in m.lanes then m.lanes[lane] else 0
  }

  /** The locked section of `emit`; `prior` are the seeded totals and `base` the global counters at the start. */
  function Counted(m: Metrics, prior: Global, base: Global, told: Told): Metrics
    requires told.Search? ==> told.now.searches >= base.searches && told.now.hits >= base.hits
  {
    match told
    case Attempt(lane) => m.(calls := m.calls + 1, lanes := m.lanes[lane := LaneCount(m, lane) + 1])
    case Search(now) => m.(searches := prior.searches + (now.searches - base.searches),
                           hits := prior.hits + (now.hits - base.hits))
    case Fused(signals, rows) => m.(signals := signals, rows := rows)
    case Other => m
  }

  class Emitter {
    var stats: Metrics
    var lastFlush: real
    const prior: Global
    const base: Global

    /** Seeds the counters from the row of the run. */
    constructor (row: Metrics, now: Global)
      ensures stats == row && lastFlush == 0.0 && prior == Global(row.searches, row.hits) && base == now
    {
      stats, lastFlush := row, 0.0;
      prior, base := Global(row.searches, row.hits), now;
    }

    method Count(told: Told) returns (changed: bool)
      requires told.Search? ==> told.now.searches >= base.searches && told.now.hits >= base.hits
      modifies `stats
      ensures stats == Counted(old(stats), prior, base, told) && changed == !told.Other?
    {
      changed := true;
      match told {
        case Attempt(lane) =>
          stats := stats.(calls := stats.calls + 1);
          stats := stats.(lanes := stats.lanes[lane := LaneCount(stats, lane) + 1]);
        case Search(now) =>
          stats := stats.(searches := prior.searches + (now.searches - base.searches));
          stats := stats.(hits := prior.hits + (now.hits - base.hits));
        case Fused(signals, rows) =>
          stats := stats.(signals := signals, rows := rows);
        case Other =>
          changed := false;
      }
    }

    /** The locked section of `_flush`, which reads the clock twice. */
    method Gate(first: real, second: real) returns (snapshot: Option<Metrics>)
      modifies `lastFlush
      ensures snapshot == if first - old(lastFlush) < GAP then None else Some(stats)
      ensures lastFlush == if snapshot.None? then old(lastFlush) else second
    {
      if first - lastFlush < GAP {
        return None;
      }
      lastFlush := second;
      return Some(stats);
    }
  }

  // ------------------------------------------------------------------ the run

  /** `flying` holds the snapshots on their way to the row; `passed` the times at which a write was let through, of this
      emitter; `counted` and `lost` count the attempts of all phases, and those that a failed final flush forgot. */
  datatype World = World(stats: Metrics, lastFlush: real, prior: Global, base: Global, clock: real, global: Global,
                         flying: seq<Metrics>, row: Metrics, passed: seq<real>, counted: nat, lost: nat)

  datatype Step = Emit(told: Told)             // a thread counts an event
                | Pass(wait: real, hold: real)  // a thread runs the throttle gate
                | Land(i: nat) | Drop(i: nat)   // a snapshot reaches the row, or its write fails
                | Elsewhere(searches: nat, hits: nat)
                | Final(ok: bool)               // the flush at the end of a phase, its threads being done
                | Restart                       // the next phase starts from the row

  predicate Enabled(w: World, s: Step) {
    match s
    case Emit(told) => told.Search? ==> told.now == w.global
    case Pass(wait, hold) => wait >= 0.0 && hold >= 0.0
    case Land(i) => i < |w.flying|
    case Drop(i) => i < |w.flying|
    case Final(_) => w.flying == []
    case Restart => w.flying == []
    case Elsewhere(_, _) => true
  }

  predicate Sane(w: World) {
    w.global.searches >= w.base.searches && w.global.hits >= w.base.hits
  }

  function Without<T>(xs: seq<T>, i: nat): seq<T>
    requires i < |xs|
  {
    xs[..i] + xs[i + 1..]
  }

  function Next(w: World, s: Step): World
    requires Sane(w) && Enabled(w, s)
  {
    match s
    case Emit(told) =>
      w.(stats := Counted(w.stats, w.prior, w.base, told), counted := w.counted + (if told.Attempt? then 1 else 0))
    case Pass(wait, hold) =>
      var first, second := w.clock + wait, w.clock + wait + hold;
      if first - w.lastFlush < GAP then w.(clock := second)
      else w.(clock := second, lastFlush := second, flying := w.flying + [w.stats], passed := w.passed + [second])
    case Land(i) => w.(row := w.flying[i], flying := Without(w.flying, i))
    case Drop(i) => w.(flying := Without(w.flying, i))
    case Elsewhere(n, h) => w.(global := Global(w.global.searches + n, w.global.hits + h))
    case Final(ok) => if ok then w.(row := w.stats) else w
    case Restart =>
      w.(stats := w.row, lastFlush := 0.0, prior := Global(w.row.searches, w.row.hits), base := w.global, passed := [],
         lost := w.lost + if w.stats.calls >= w.row.calls then w.stats.calls - w.row.calls else 0)
  }

  ghost predicate Run(trace: seq<World>, steps: seq<Step>) {
    && |trace| == |steps| + 1
    && (forall i :: 0 <= i < |trace| ==> Sane(trace[i]))
    && (forall i :: 0 <= i < |steps| ==> Enabled(trace[i], steps[i]) && trace[i + 1] == Next(trace[i], steps[i]))
  }

  ghost predicate Fresh(w: World) {
    && w.stats == w.row == ZERO && w.flying == [] && w.passed == [] && w.lastFlush == 0.0 <= w.clock
    && w.prior == Global(0, 0) && w.base == w.global && w.counted == w.lost == 0
  }

  // ------------------------------------------------------------------ what holds in every state

  /** The attempts are the sum of the lanes. */
  ghost predicate AddsUp(m: Metrics) {
    m.calls == S.Sum(m.lanes)
  }

  /** Nothing is counted more often in `a` than in `b`. */
  ghost predicate Below(a: Metrics, b: Metrics) {
    && a.calls <= b.calls && a.searches <= b.searches && a.hits <= b.hits
    && forall lane :: LaneCount(a, lane) <= LaneCount(b, lane)
  }

  /** The memory, the row and every snapshot add up, and neither the row nor a snapshot is ahead of the memory. */
  ghost predicate Inv(w: World) {
    && Sane(w)
    && AddsUp(w.stats) && AddsUp(w.row) && Below(w.row, w.stats)
    && (forall i :: 0 <= i < |w.flying| ==> AddsUp(w.flying[i]) && Below(w.flying[i], w.stats))
    && w.stats.searches <= w.prior.searches + (w.global.searches - w.base.searches)
    && w.stats.hits <= w.prior.hits + (w.global.hits - w.base.hits)
    && 0.0 <= w.clock && w.lastFlush <= w.clock
    && w.stats.calls + w.lost == w.counted
    && SpacedOut(w.passed) && (w.passed != [] ==> w.passed[|w.passed| - 1] == w.lastFlush)
  }

  ghost predicate SpacedOut(times: seq<real>) {
    forall i, j :: 0 <= i < j < |times| ==> times[j] - times[i] >= GAP
  }

  lemma CountedGrows(m: Metrics, prior: Global, base: Global, told: Told)
    requires told.Search? ==> told.now.searches >= base.searches && told.now.hits >= base.hits
    requires told.Search? ==> m.searches <= prior.searches + (told.now.searches - base.searches)
    requires told.Search? ==> m.hits <= prior.hits + (told.now.hits - base.hits)
    requires AddsUp(m)
    ensures AddsUp(Counted(m, prior, base, told)) && Below(m, Counted(m, prior, base, told))
    ensures Counted(m, prior, base, told).calls == m.calls + if told.Attempt? then 1 else 0
  {
    if told.Attempt? {
      S.SumUpdate(m.lanes, told.lane, LaneCount(m, told.lane) + 1);
    }
  }

  lemma BelowChain(a: Metrics, b: Metrics, c: Metrics)
    requires Below(a, b) && Below(b, c)
    ensures Below(a, c)
  {
  }

  lemma EmitKeeps(w: World, told: Told)
    requires Inv(w) && Enabled(w, Emit(told))
    ensures Inv(Next(w, Emit(told)))
  {
    CountedGrows(w.stats, w.prior, w.base, told);
    var m := Counted(w.stats, w.prior, w.base, told);
    BelowChain(w.row, w.stats, m);
    forall i | 0 <= i < |w.flying| ensures Below(w.flying[i], m) {
      BelowChain(w.flying[i], w.stats, m);
    }
  }

  lemma PassKeeps(w: World, wait: real, hold: real)
    requires Inv(w) && Enabled(w, Pass(wait, hold))
    ensures Inv(Next(w, Pass(wait, hold)))
  {
    var w' := Next(w, Pass(wait, hold));
    if w'.passed != w.passed {
      forall i, j | 0 <= i < j < |w'.passed| ensures w'.passed[j] - w'.passed[i] >= GAP {
        if j == |w.passed| {
          assert w'.passed[j] - w.lastFlush >= GAP;
        }
      }
    }
  }

  lemma NextKeeps(w: World, s: Step)
    requires Inv(w) && Enabled(w, s)
    ensures Inv(Next(w, s))
  {
    match s
    case Emit(told) => EmitKeeps(w, told);
    case Pass(wait, hold) => PassKeeps(w, wait, hold);
    case _ =>
  }

  lemma {:induction false} RunKeeps(trace: seq<World>, steps: seq<Step>)
    requires Run(trace, steps) && Inv(trace[0])
    ensures forall i :: 0 <= i < |trace| ==> Inv(trace[i])
  {
    if steps != [] {
      var n := |steps| - 1;
      assert Run(trace[..n + 1], steps[..n]);
      RunKeeps(trace[..n + 1], steps[..n]);
      assert Inv(trace[..n + 1][n]);
      NextKeeps(trace[n], steps[n]);
    }
  }

  /** Over both phases and any interleaving of concurrent emits, the attempts always equal the sum of the lanes, in the
      memory and in the row; the row is never ahead of the memory; writes are let through at least 1.5 seconds apart; and
      the memory holds every attempt ever counted but those that a failed final flush lost. */
  lemma CountersAddUp(trace: seq<World>, steps: seq<Step>)
    requires Run(trace, steps) && Fresh(trace[0])
    ensures forall i :: 0 <= i < |trace| ==>
      && AddsUp(trace[i].stats) && AddsUp(trace[i].row) && Below(trace[i].row, trace[i].stats)
      && SpacedOut(trace[i].passed)
      && trace[i].stats.calls + trace[i].lost == trace[i].counted
  {
    RunKeeps(trace, steps);
  }

  /** Within a phase no counter in memory ever decreases. */
  lemma NeverDecreases(w: World, s: Step)
    requires Inv(w) && Enabled(w, s) && !s.Restart?
    ensures Below(w.stats, Next(w, s).stats)
  {
    if s.Emit? {
      CountedGrows(w.stats, w.prior, w.base, s.told);
    }
  }

  /** When the final flush succeeds, the row holds the memory, and the next phase starts from it and loses nothing. */
  lemma TotalsAreHandedOn(w: World)
    requires Inv(w) && w.flying == []
    ensures Enabled(w, Final(true)) && Next(w, Final(true)).row == w.stats
    ensures var w' := Next(Next(w, Final(true)), Restart);
      w'.stats == w.stats && w'.lost == w.lost && w'.prior == Global(w.stats.searches, w.stats.hits)
  {
    NextKeeps(w, Final(true));
  }

  /** A restart loses attempts if and only if the row is behind the memory. */
  lemma LossIff(w: World)
    requires Inv(w) && w.flying == []
    ensures Next(w, Restart).lost == w.lost <==> w.row.calls == w.stats.calls
    ensures Next(w, Restart).stats.calls + (Next(w, Restart).lost - w.lost) == w.stats.calls
  {
  }

  /** Every phase starts right after a successful final flush of the one before. */
  ghost predicate HandsOver(steps: seq<Step>) {
    forall i :: 0 <= i < |steps| && steps[i].Restart? ==> i > 0 && steps[i - 1] == Final(true)
  }

  function Attempts(steps: seq<Step>): nat {
    if steps == [] then 0
    else
      var last := steps[|steps| - 1];
      Attempts(steps[..|steps| - 1]) + (if last.Emit? && last.told.Attempt? then 1 else 0)
  }

  /** One step of a run that hands over loses nothing and lowers nothing. */
  lemma StepLosesNothing(trace: seq<World>, steps: seq<Step>, i: nat)
    requires Run(trace, steps) && HandsOver(steps) && i < |steps|
    requires Inv(trace[i])
    ensures trace[i + 1].lost == trace[i].lost && Below(trace[i].stats, trace[i + 1].stats)
    ensures trace[i + 1].counted
         == trace[i].counted + if steps[i].Emit? && steps[i].told.Attempt? then 1 else 0
  {
    if steps[i].Restart? {
      assert steps[i - 1] == Final(true) && trace[i] == Next(trace[i - 1], steps[i - 1]);
    } else {
      NeverDecreases(trace[i], steps[i]);
    }
  }

  lemma {:induction false} NothingIsLost(trace: seq<World>, steps: seq<Step>, n: nat)
    requires Run(trace, steps) && HandsOver(steps) && n <= |steps|
    requires forall i :: 0 <= i < |trace| ==> Inv(trace[i])
    ensures trace[n].lost == trace[0].lost && Below(trace[0].stats, trace[n].stats)
    ensures trace[n].counted == trace[0].counted + Attempts(steps[..n])
  {
    if n > 0 {
      NothingIsLost(trace, steps, n - 1);
      StepLosesNothing(trace, steps, n - 1);
      BelowChain(trace[0].stats, trace[n - 1].stats, trace[n].stats);
      assert steps[..n][..n - 1] == steps[..n - 1];
    }
  }

  /** Over all phases of a run whose final flushes succeed, the memory ends with exactly the attempts emitted, which are the
      sum of its lanes, and no counter is ever lower than at the start. */
  lemma TotalsAreExact(trace: seq<World>, steps: seq<Step>)
    requires Run(trace, steps) && HandsOver(steps) && Fresh(trace[0])
    ensures var m := trace[|steps|].stats;
      m.calls == Attempts(steps) == S.Sum(m.lanes) && Below(trace[0].stats, m)
  {
    RunKeeps(trace, steps);
    NothingIsLost(trace, steps, |steps|);
    assert steps[..|steps|] == steps;
  }

  function AttemptsOf(steps: seq<Step>, lane: string): nat {
    if steps == [] then 0
    else
      var last := steps[|steps| - 1];
      AttemptsOf(steps[..|steps| - 1], lane) + (if last == Emit(Attempt(lane)) then 1 else 0)
  }

  /** The sizes of the graph that were told last. */
  function LastFused(steps: seq<Step>): Option<(nat, nat)> {
    if steps == [] then None
    else
      var last := steps[|steps| - 1];
      if last.Emit? && last.told.Fused? then Some((last.told.signals, last.told.rows)) else LastFused(steps[..|steps| - 1])
  }

  /** A run that hands over goes on with the memory it had. */
  lemma RestartGoesOn(trace: seq<World>, steps: seq<Step>, i: nat)
    requires Run(trace, steps) && HandsOver(steps) && i < |steps| && steps[i].Restart?
    ensures trace[i + 1].stats == trace[i].stats
  {
    assert trace[i] == Next(trace[i - 1], steps[i - 1]);
  }

  /** One step, as seen by the lane counters and the graph figures. */
  lemma StepTellsFigures(trace: seq<World>, steps: seq<Step>, i: nat, lane: string)
    requires Run(trace, steps) && HandsOver(steps) && i < |steps|
    ensures LaneCount(trace[i + 1].stats, lane)
         == LaneCount(trace[i].stats, lane) + if steps[i] == Emit(Attempt(lane)) then 1 else 0
    ensures (trace[i + 1].stats.signals, trace[i + 1].stats.rows)
         == if steps[i].Emit? && steps[i].told.Fused? then (steps[i].told.signals, steps[i].told.rows)
            else (trace[i].stats.signals, trace[i].stats.rows)
  {
    assert trace[i + 1] == Next(trace[i], steps[i]);
    if steps[i].Restart? {
      RestartGoesOn(trace, steps, i);
    }
  }

  /** Over all phases of a run whose final flushes succeed, each lane has exactly the attempts that named it, and the graph
      figures are those that were told last. */
  lemma {:induction false} FiguresAreTold(trace: seq<World>, steps: seq<Step>, n: nat, lane: string)
    requires Run(trace, steps) && HandsOver(steps) && n <= |steps|
    ensures LaneCount(trace[n].stats, lane) == LaneCount(trace[0].stats, lane) + AttemptsOf(steps[..n], lane)
    ensures (trace[n].stats.signals, trace[n].stats.rows)
         == match LastFused(steps[..n])
            case Some(told) => told
            case None => (trace[0].stats.signals, trace[0].stats.rows)
  {
    if n > 0 {
      FiguresAreTold(trace, steps, n - 1, lane);
      StepTellsFigures(trace, steps, n - 1, lane);
      assert steps[..n][..n - 1] == steps[..n - 1];
    }
  }

  lemma StaysSane(w: World, s: Step)
    requires Sane(w) && Enabled(w, s)
    ensures Sane(Next(w, s))
  {
  }

  /** A snapshot is taken, an attempt is counted, and a second snapshot is taken. */
  lemma TwoSnapshots(w: World, lane: string) returns (w1: World, w2: World, w3: World)
    requires Sane(w) && w.flying == [] && w.lastFlush <= w.clock
    ensures Sane(w1) && Sane(w2) && Sane(w3)
    ensures w1 == Next(w, Pass(GAP, 0.0)) && w2 == Next(w1, Emit(Attempt(lane))) && w3 == Next(w2, Pass(GAP, 0.0))
    ensures w3.flying == [w.stats, w2.stats] && w2.stats.calls == w.stats.calls + 1
  {
    w1 := Next(w, Pass(GAP, 0.0));
    w2 := Next(w1, Emit(Attempt(lane)));
    w3 := Next(w2, Pass(GAP, 0.0));
  }

  /** In mid-run the row may fall back: of two snapshots under way the older may land last. */
  lemma RowMayFallBack(w: World, lane: string)
    requires Sane(w) && w.flying == [] && w.lastFlush <= w.clock
    ensures exists trace: seq<World>, steps: seq<Step> ::
      Run(trace, steps) && trace[0] == w && |steps| == 5 && trace[5].row.calls < trace[4].row.calls
  {
    var w1, w2, w3 := TwoSnapshots(w, lane);
    var w4 := Next(w3, Land(1));
    assert w4.flying == [w.stats];
    var w5 := Next(w4, Land(0));
    StaysSane(w3, Land(1));
    StaysSane(w4, Land(0));
    assert Run([w, w1, w2, w3, w4, w5], [Pass(GAP, 0.0), Emit(Attempt(lane)), Pass(GAP, 0.0), Land(1), Land(0)]);
  }
}
