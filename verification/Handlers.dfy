/** The handlers and background functions that drive a run (app/core/lifecycle.py, app/api/routes.py,
    app/api/companies_routes.py), as the source writes them: sequences of repository calls with exception paths. Each is
    proved to be its protocol task running without interruption; what holds under interruption is RunProtocol's matter.
    `ok(i)` says whether the i-th call succeeds. */
module Handlers {
  import opened Wrappers
  import opened RunStore
  import opened RunProtocol

  /** A task that takes `n` steps in a row: the store, the task, and what it has scheduled. */
  ghost function Alone(s: Store, t: Task, ok: nat -> bool, a: Answer, n: nat): (Store, Task, seq<Task>) {
    if n == 0 then (s, t, [])
    else
      var (s1, t1, scheduled) := Alone(s, t, ok, a, n - 1);
      var (s2, t2, more) := StepTask(true, s1, t1, ok(n - 1), a);
      (s2, t2, scheduled + more)
  }

  predicate Idle(t: Task) {
    match t
    case Discovery(_, _, pc) => pc == DOver
    case Confirm(_, _, _, pc) => pc == COver || pc == CLost
    case Refresh(_, _, _, _, pc) => pc == ROver || pc == RLost
    case Analysis(_, _, _, pc) => pc == AOver
  }

  /** A task that has ended stays as it is. */
  lemma {:induction false} StaysIdle(s: Store, t: Task, ok: nat -> bool, a: Answer, n: nat, m: nat)
    requires n <= m && Idle(Alone(s, t, ok, a, n).1)
    ensures Alone(s, t, ok, a, m) == Alone(s, t, ok, a, n)
  {
    if n < m {
      StaysIdle(s, t, ok, a, n, m - 1);
      var r := Alone(s, t, ok, a, n);
      assert r.2 + [] == r.2;
    }
  }

  /** Run alone from `s` on, the task `t` comes to its end, and leaves the store `s'` and the tasks `more` scheduled. */
  ghost predicate EndsIn(s: Store, t: Task, ok: nat -> bool, a: Answer, s': Store, more: seq<Task>) {
    exists n: nat :: EndsAfter(s, t, ok, a, n, s', more)
  }

  ghost predicate EndsAfter(s: Store, t: Task, ok: nat -> bool, a: Answer, n: nat, s': Store, more: seq<Task>) {
    var r := Alone(s, t, ok, a, n);
    Idle(r.1) && r.0 == s' && r.2 == more
  }

  /** There is only one such end. */
  lemma EndsOnce(s: Store, t: Task, ok: nat -> bool, a: Answer, s1: Store, more1: seq<Task>, s2: Store, more2: seq<Task>)
    requires EndsIn(s, t, ok, a, s1, more1) && EndsIn(s, t, ok, a, s2, more2)
    ensures s1 == s2 && more1 == more2
  {
    var n: nat :| EndsAfter(s, t, ok, a, n, s1, more1);
    var m: nat :| EndsAfter(s, t, ok, a, m, s2, more2);
    if n <= m {
      StaysIdle(s, t, ok, a, n, m);
    } else {
      StaysIdle(s, t, ok, a, m, n);
    }
  }

  /** `n` consecutive steps of one task, among any others. */
  function InARow(i: nat, ok: nat -> bool, a: Answer, n: nat): seq<Action> {
    if n == 0 then [] else InARow(i, ok, a, n - 1) + [Step(i, ok(n - 1), a)]
  }

  lemma Rescheduled(tasks: seq<Task>, i: nat, t: Task, scheduled: seq<Task>, t': Task, more: seq<Task>)
    requires i < |tasks|
    ensures (tasks[i := t] + scheduled)[i := t'] + more == tasks[i := t'] + (scheduled + more)
  {
  }

  lemma OneMoreAction(w: World, actions: seq<Action>, e: Action)
    ensures Exec(true, w, actions + [e]) == Do(true, Exec(true, w, actions), e)
  {
    assert (actions + [e])[..|actions|] == actions;
  }

  lemma OneMoreStep(w: World, i: nat, s: Store, t: Task, scheduled: seq<Task>, ok: bool, a: Answer)
    requires i < |w.tasks|
    ensures var (s', t', more) := StepTask(true, s, t, ok, a);
      Do(true, World(s, w.tasks[i := t] + scheduled), Step(i, ok, a)) == World(s', w.tasks[i := t'] + (scheduled + more))
  {
    var (s', t', more) := StepTask(true, s, t, ok, a);
    Rescheduled(w.tasks, i, t, scheduled, t', more);
  }

  /** So an uninterrupted task is one of the executions of the protocol. */
  lemma {:induction false} AloneIsAnExecution(w: World, i: nat, ok: nat -> bool, a: Answer, n: nat)
    requires i < |w.tasks|
    ensures var (s, t, scheduled) := Alone(w.store, w.tasks[i], ok, a, n);
      Exec(true, w, InARow(i, ok, a, n)) == World(s, w.tasks[i := t] + scheduled)
  {
    if n == 0 {
      assert w.tasks[i := w.tasks[i]] + [] == w.tasks;
    } else {
      AloneIsAnExecution(w, i, ok, a, n - 1);
      OneMoreAction(w, InARow(i, ok, a, n - 1), Step(i, ok(n - 1), a));
      var (s, t, scheduled) := Alone(w.store, w.tasks[i], ok, a, n - 1);
      OneMoreStep(w, i, s, t, scheduled, ok(n - 1), a);
    }
  }

  /** One call of a handler is one step of its task. */
  lemma Advance(s: Store, t: Task, ok: nat -> bool, a: Answer, n: nat)
    ensures var (s1, t1, scheduled) := Alone(s, t, ok, a, n);
      var (s2, t2, more) := StepTask(true, s1, t1, ok(n), a);
      Alone(s, t, ok, a, n + 1) == (s2, t2, scheduled + more)
  {
  }

  lemma AdvanceAnalysis(s: Store, t: Task, ok: nat -> bool, a: Answer, n: nat)
    requires Alone(s, t, ok, a, n).1.Analysis?
    ensures var r := Alone(s, t, ok, a, n);
      (Alone(s, t, ok, a, n + 1).0, Alone(s, t, ok, a, n + 1).1) == StepAnalysis(r.0, r.1, ok(n), a) &&
      Alone(s, t, ok, a, n + 1).2 == r.2
  {
    Advance(s, t, ok, a, n);
  }

  lemma AdvanceDiscovery(s: Store, t: Task, ok: nat -> bool, a: Answer, n: nat)
    requires Alone(s, t, ok, a, n).1.Discovery?
    ensures var r := Alone(s, t, ok, a, n);
      (Alone(s, t, ok, a, n + 1).0, Alone(s, t, ok, a, n + 1).1) == StepDiscovery(true, r.0, r.1, ok(n), a) &&
      Alone(s, t, ok, a, n + 1).2 == r.2
  {
    Advance(s, t, ok, a, n);
  }

  predicate AllOk(ok: nat -> bool, n: nat) {
    forall i: nat :: i < n ==> ok(i)
  }

  /** Nothing but the row of `job` is different in the runs, and there nothing but its status, stage and error. */
  predicate OnlyStatus(before: map<JobId, Row>, after: map<JobId, Row>, job: JobId) {
    && after.Keys == before.Keys
    && (forall j :: j in before && j != job ==> after[j] == before[j])
    && (job in before ==> after[job].id == before[job].id && after[job].company == before[job].company)
  }

  predicate HasStatus(runs: map<JobId, Row>, job: JobId, status: Status) {
    job in runs ==> runs[job].status == status
  }

  predicate HasFailed(runs: map<JobId, Row>, job: JobId) {
    job in runs ==> runs[job].status == Failed && runs[job].error == Some("internal pipeline error")
  }

  // ------------------------------------------------------------------ phase 2

  /** `start_analysis`, with the report that its graph comes up with. That report is stored as it is if the calls up to the
      save succeed, and else no report changes; the run is completed if all succeed, and failed if one of them fails inside
      the `try` and the handler's succeeds; nothing else changes. */
  method StartAnalysis(store: MemStore, job: JobId, run: RunId, list: seq<Competitor>, a: Answer, ok: nat -> bool)
    modifies store
    ensures EndsIn(old(store.Contents()), Analysis(job, run, list, ASetup), ok, a, store.Contents(), [])
    ensures store.reports == if AllOk(ok, 4) then old(store.reports)[run := a.report] else old(store.reports)
    ensures store.competitors == old(store.competitors) && OnlyStatus(old(store.runs), store.runs, job)
    ensures !ok(0) ==> store.runs == old(store.runs)
    ensures AllOk(ok, 5) ==> HasStatus(store.runs, job, Completed)
    ensures ok(0) && !AllOk(ok, 5) && ok(Trouble(ok, 1) + 1) ==> HasFailed(store.runs, job)
  {
    var s, t := store.Contents(), Analysis(job, run, list, ASetup);
    AdvanceAnalysis(s, t, ok, a, 0);
    if !ok(0) {
      assert EndsAfter(s, t, ok, a, 1, store.Contents(), []);
      return;
    }
    AdvanceAnalysis(s, t, ok, a, 1);
    if !ok(1) {
      RescueAnalysis(store, job, s, t, a, ok, 2);
      return;
    }
    store.UpdateRunStatus(job, RunningAnalysis, "news");
    AdvanceAnalysis(s, t, ok, a, 2);
    if !ok(2) {
      RescueAnalysis(store, job, s, t, a, ok, 3);
      return;
    }
    SaveAndFinish(store, job, run, s, t, a, ok);
  }

  /** The end of `start_analysis`, from the save on. */
  method SaveAndFinish(store: MemStore, job: JobId, run: RunId, s: Store, t: Task, a: Answer, ok: nat -> bool)
    requires var (s', t', more) := Alone(s, t, ok, a, 3);
      store.Contents() == s' && more == [] && t'.Analysis? && t'.job == job && t'.run == run && t'.apc == ASave
    modifies store
    ensures EndsIn(s, t, ok, a, store.Contents(), [])
    ensures store.reports == if ok(3) then old(store.reports)[run := a.report] else old(store.reports)
    ensures store.competitors == old(store.competitors) && OnlyStatus(old(store.runs), store.runs, job)
    ensures ok(3) && ok(4) ==> HasStatus(store.runs, job, Completed)
    ensures Trouble(ok, 3) < 5 && ok(Trouble(ok, 3) + 1) ==> HasFailed(store.runs, job)
  {
    AdvanceAnalysis(s, t, ok, a, 3);
    if !ok(3) {
      RescueAnalysis(store, job, s, t, a, ok, 4);
      return;
    }
    store.SaveReport(run, a.report);
    AdvanceAnalysis(s, t, ok, a, 4);
    if !ok(4) {
      RescueAnalysis(store, job, s, t, a, ok, 5);
      return;
    }
    store.FinishRun(job);
    assert EndsAfter(s, t, ok, a, 5, store.Contents(), []);
  }

  /** The first of the calls `n`, `n + 1`, `n + 2` that fails, or `n + 3`. */
  function Trouble(ok: nat -> bool, n: nat): nat {
    if !ok(n) then n else if !ok(n + 1) then n + 1 else if !ok(n + 2) then n + 2 else n + 3
  }

  /** The exception handler, after `n` calls of a task that began at `s` and `t`. */
  method RescueAnalysis(store: MemStore, job: JobId, s: Store, t: Task, a: Answer, ok: nat -> bool, n: nat)
    requires var (s', t', more) := Alone(s, t, ok, a, n);
      store.Contents() == s' && more == [] && t'.Analysis? && t'.job == job && t'.apc == ARescue
    modifies store
    ensures EndsIn(s, t, ok, a, store.Contents(), [])
    ensures store.reports == old(store.reports) && store.competitors == old(store.competitors)
    ensures OnlyStatus(old(store.runs), store.runs, job) && (ok(n) ==> HasFailed(store.runs, job))
  {
    AdvanceAnalysis(s, t, ok, a, n);
    if ok(n) {
      store.FailRun(job, "internal pipeline error");
    }
    assert EndsAfter(s, t, ok, a, n + 1, store.Contents(), []);
  }

  // ------------------------------------------------------------------ phase 1

  /** `start_discovery`, with the proposal that its graph saves. The proposal is added to the list of the run as it is if
      the calls up to the save succeed, and else no list changes; the run awaits its confirmation if all succeed (a failed
      save does no harm), and is failed if one fails inside the `try` and the handler's succeeds; nothing else changes. */
  method StartDiscovery(store: MemStore, job: JobId, run: RunId, a: Answer, ok: nat -> bool)
    modifies store
    ensures EndsIn(old(store.Contents()), Discovery(job, run, DSetup), ok, a, store.Contents(), [])
    ensures store.reports == old(store.reports) && OnlyStatus(old(store.runs), store.runs, job)
    ensures store.competitors == if AllOk(ok, 4) && a.proposal != []
                                 then old(store.competitors)[run := old(store.Contents()).GetCompetitors(run) + a.proposal]
                                 else old(store.competitors)
    ensures !ok(0) ==> store.runs == old(store.runs)
    ensures ok(0) && ok(1) && ok(2) && ok(4) && ok(5) && ok(6) ==> HasStatus(store.runs, job, AwaitingConfirmation)
    ensures ok(0) && Trouble(ok, 1) < 3 && ok(Trouble(ok, 1) + 1) ==> HasFailed(store.runs, job)
    ensures AllOk(ok, 3) && Trouble(ok, 4) < 7 && ok(Trouble(ok, 4) + 1) ==> HasFailed(store.runs, job)
  {
    var s, t := store.Contents(), Discovery(job, run, DSetup);
    AdvanceDiscovery(s, t, ok, a, 0);
    if !ok(0) {
      assert EndsAfter(s, t, ok, a, 1, store.Contents(), []);
      return;
    }
    AdvanceDiscovery(s, t, ok, a, 1);
    if !ok(1) {
      RescueDiscovery(store, job, s, t, a, ok, 2);
      return;
    }
    store.UpdateRunStatus(job, RunningDiscovery, "discovery");
    AdvanceDiscovery(s, t, ok, a, 2);
    if !ok(2) {
      RescueDiscovery(store, job, s, t, a, ok, 3);
      return;
    }
    Propose(store, job, run, s, t, a, ok);
    ParkDiscovery(store, job, s, t, a, ok);
  }

  /** The discovery graph saves its proposal; a failure is swallowed. */
  method Propose(store: MemStore, job: JobId, run: RunId, s: Store, t: Task, a: Answer, ok: nat -> bool)
    requires var (s', t', more) := Alone(s, t, ok, a, 3);
      store.Contents() == s' && more == [] && t'.Discovery? && t'.job == job && t'.run == run && t'.dpc == DPropose
    modifies store
    ensures var (s', t', more) := Alone(s, t, ok, a, 4);
      store.Contents() == s' && more == [] && t'.Discovery? && t'.job == job && t'.dpc == DResolve
    ensures store.reports == old(store.reports) && store.runs == old(store.runs)
    ensures store.competitors == if ok(3) && a.proposal != []
                                 then old(store.competitors)[run := old(store.Contents()).GetCompetitors(run) + a.proposal]
                                 else old(store.competitors)
  {
    AdvanceDiscovery(s, t, ok, a, 3);
    if ok(3) {
      store.SaveCompetitors(run, a.proposal);
    }
  }

  /** The end of `start_discovery`, from the resolved company on. */
  method ParkDiscovery(store: MemStore, job: JobId, s: Store, t: Task, a: Answer, ok: nat -> bool)
    requires var (s', t', more) := Alone(s, t, ok, a, 4);
      store.Contents() == s' && more == [] && t'.Discovery? && t'.job == job && t'.dpc == DResolve
    modifies store
    ensures EndsIn(s, t, ok, a, store.Contents(), [])
    ensures store.reports == old(store.reports) && store.competitors == old(store.competitors)
    ensures OnlyStatus(old(store.runs), store.runs, job)
    ensures ok(4) && ok(5) && ok(6) ==> HasStatus(store.runs, job, AwaitingConfirmation)
    ensures Trouble(ok, 4) < 7 && ok(Trouble(ok, 4) + 1) ==> HasFailed(store.runs, job)
  {
    AdvanceDiscovery(s, t, ok, a, 4);
    if !ok(4) {
      RescueDiscovery(store, job, s, t, a, ok, 5);
      return;
    }
    AwaitConfirmation(store, job, s, t, a, ok);
  }

  /** From the status write on. */
  method AwaitConfirmation(store: MemStore, job: JobId, s: Store, t: Task, a: Answer, ok: nat -> bool)
    requires var (s', t', more) := Alone(s, t, ok, a, 5);
      store.Contents() == s' && more == [] && t'.Discovery? && t'.job == job && t'.dpc == DPark
    modifies store
    ensures EndsIn(s, t, ok, a, store.Contents(), [])
    ensures store.reports == old(store.reports) && store.competitors == old(store.competitors)
    ensures OnlyStatus(old(store.runs), store.runs, job)
    ensures ok(5) && ok(6) ==> HasStatus(store.runs, job, AwaitingConfirmation)
    ensures Trouble(ok, 5) < 7 && ok(Trouble(ok, 5) + 1) ==> HasFailed(store.runs, job)
  {
    AdvanceDiscovery(s, t, ok, a, 5);
    if !ok(5) {
      RescueDiscovery(store, job, s, t, a, ok, 6);
      return;
    }
    store.UpdateRunStatus(job, AwaitingConfirmation, "awaiting_confirmation");
    AdvanceDiscovery(s, t, ok, a, 6);
    if !ok(6) {
      RescueDiscovery(store, job, s, t, a, ok, 7);
      return;
    }
    assert EndsAfter(s, t, ok, a, 7, store.Contents(), []);
  }

  method RescueDiscovery(store: MemStore, job: JobId, s: Store, t: Task, a: Answer, ok: nat -> bool, n: nat)
    requires var (s', t', more) := Alone(s, t, ok, a, n);
      store.Contents() == s' && more == [] && t'.Discovery? && t'.job == job && t'.dpc == DRescue
    modifies store
    ensures EndsIn(s, t, ok, a, store.Contents(), [])
    ensures store.reports == old(store.reports) && store.competitors == old(store.competitors)
    ensures OnlyStatus(old(store.runs), store.runs, job) && (ok(n) ==> HasFailed(store.runs, job))
  {
    AdvanceDiscovery(s, t, ok, a, n);
    if ok(n) {
      store.FailRun(job, "internal pipeline error");
    }
    assert EndsAfter(s, t, ok, a, n + 1, store.Contents(), []);
  }

  // ------------------------------------------------------------------ the routes

  /** `lifecycle.get_run`. */
  method Poll(store: MemStore, job: JobId) returns (p: RunProtocol.Poll)
    ensures p == PollRun(store.Contents(), job)
  {
    var row := store.GetRun(job);
    if row.None? {
      return NotFound;
    }
    var listed := if row.value.id in store.competitors then store.competitors[row.value.id] else [];
    if |listed| > 4 {
      return Unreadable;
    }
    var result := if listed != [] || DiscoveryDone(row.value.status) then Some(listed) else None;
    return Shown(row.value.status, result, if row.value.status == Completed then Some(row.value.id) else None);
  }

  datatype Reply = Missing | Refused | Accepted | Broke

  /** `POST /runs/{job}/confirm`: refused unless the run awaits confirmation; otherwise the run is confirmed, the list is
      the caller's, and exactly one analysis of it is scheduled. */
  method ConfirmRoute(store: MemStore, job: JobId, list: seq<Competitor>, a: Answer, ok: nat -> bool)
    returns (reply: Reply, scheduled: seq<Task>)
    modifies store
    ensures EndsIn(old(store.Contents()), Confirm(job, list, "", CCheck), ok, a, store.Contents(), scheduled)
    ensures reply.Accepted? <==> scheduled != []
    ensures reply.Accepted? ==>
      && job in old(store.Contents()).runs
      && var run := old(store.Contents()).runs[job].id;
      && scheduled == [Analysis(job, run, list, ASetup)]
      && store.competitors == old(store.competitors)[run := list] && store.reports == old(store.reports)
      && OnlyStatus(old(store.runs), store.runs, job) && HasStatus(store.runs, job, ConfirmedRun)
    ensures (forall i :: ok(i)) && PollRun(old(store.Contents()), job).Shown? ==>
      (reply.Accepted? <==> old(store.Contents()).runs[job].status == AwaitingConfirmation)
    ensures (forall i :: ok(i)) ==>
      && (reply.Missing? <==> job !in old(store.runs))
      && (reply.Refused? <==> PollRun(old(store.Contents()), job).Shown? &&
                              old(store.Contents()).runs[job].status != AwaitingConfirmation)
    ensures !reply.Accepted? && !reply.Broke? ==> store.Contents() == old(store.Contents())
  {
    var s, t := store.Contents(), Confirm(job, list, "", CCheck);
    scheduled := [];
    Advance(s, t, ok, a, 0);
    var p := Poll(store, job);
    if !ok(0) || !p.Shown? {
      assert EndsAfter(s, t, ok, a, 1, store.Contents(), []);
      return if ok(0) && p.NotFound? then Missing else Broke, [];
    }
    Advance(s, t, ok, a, 1);
    if !ok(1) {
      assert EndsAfter(s, t, ok, a, 2, store.Contents(), []);
      return Broke, [];
    }
    var run := store.ConfirmRun(job);
    if run.None? {
      assert EndsAfter(s, t, ok, a, 2, store.Contents(), []);
      return Refused, [];
    }
    Advance(s, t, ok, a, 2);
    if !ok(2) {
      assert EndsAfter(s, t, ok, a, 3, store.Contents(), []);
      return Broke, [];
    }
    store.ReplaceCompetitors(run.value, list);
    Advance(s, t, ok, a, 3);
    scheduled := [Analysis(job, run.value, list, ASetup)];
    assert [] + scheduled == scheduled;
    assert EndsAfter(s, t, ok, a, 4, store.Contents(), scheduled);
    reply := Accepted;
  }

  predicate CompletedRunOf(s: Store, job: JobId, company: string) {
    job in s.runs && s.runs[job].company == company && s.runs[job].status == Completed
  }

  /** `get_latest_completed_runs` with limit 1; `byFinish` lists the jobs by the end of their runs, the latest first. */
  function Latest(s: Store, byFinish: seq<JobId>, company: string): (r: Option<JobId>)
    ensures r.Some? ==> CompletedRunOf(s, r.value, company)
  {
    if byFinish == [] then None
    else if CompletedRunOf(s, byFinish[0], company) then Some(byFinish[0])
    else Latest(s, byFinish[1..], company)
  }

  /** The latest completed run of the company, or none if it has none. */
  lemma {:induction false} LatestIsFirst(s: Store, byFinish: seq<JobId>, company: string)
    ensures var r := Latest(s, byFinish, company);
      if r.None? then forall job :: job in byFinish ==> !CompletedRunOf(s, job, company)
      else exists i :: 0 <= i < |byFinish| && byFinish[i] == r.value &&
                       forall j :: 0 <= j < i ==> !CompletedRunOf(s, byFinish[j], company)
  {
    if byFinish != [] && !CompletedRunOf(s, byFinish[0], company) {
      LatestIsFirst(s, byFinish[1..], company);
      var r := Latest(s, byFinish[1..], company);
      if r.Some? {
        var i :| 0 <= i < |byFinish| - 1 && byFinish[1..][i] == r.value &&
                 forall j :: 0 <= j < i ==> !CompletedRunOf(s, byFinish[1..][j], company);
        assert byFinish[i + 1] == r.value;
        assert forall j :: 0 < j < i + 1 ==> byFinish[j] == byFinish[1..][j - 1];
      } else {
        assert byFinish == [byFinish[0]] + byFinish[1..];
      }
    }
  }

  /** What a refresh takes over: the rivals of the latest completed run. */
  function RivalsToRefresh(s: Store, byFinish: seq<JobId>, company: Option<string>): seq<Competitor> {
    if company.None? then []
    else
      match Latest(s, byFinish, company.value)
      case None => []
      case Some(from) => s.GetCompetitors(s.runs[from].id)
  }

  /** That is the stored list of that run, whole. */
  lemma RefreshedListIsTheStored(s: Store, byFinish: seq<JobId>, company: string, from: JobId)
    requires Latest(s, byFinish, company) == Some(from)
    ensures var run := s.runs[from].id;
      RivalsToRefresh(s, byFinish, Some(company)) == if run in s.competitors then s.competitors[run] else []
  {
  }

  /** `POST /companies/{slug}/refresh`, with the company that the slug names, if any, and whether the lookups can be read:
      a new run with the rivals of the latest completed one, whose analysis is scheduled at once. An unknown company is not
      found, and one without a completed run that has rivals is refused; neither changes anything. */
  method RefreshRoute(store: MemStore, company: Option<string>, byFinish: seq<JobId>, readable: bool, a: Answer,
                      ok: nat -> bool)
    returns (reply: Reply, scheduled: seq<Task>)
    requires store.Contents().Fresh(a.job, a.run)
    modifies store
    ensures var rivals := RivalsToRefresh(old(store.Contents()), byFinish, company);
      if !readable || rivals == []
      then && store.Contents() == old(store.Contents()) && scheduled == []
           && reply == (if !readable then Broke else if company.None? then Missing else Refused)
      else && EndsIn(old(store.Contents()), Refresh(rivals, company.value, "", "", RCreate), ok, a, store.Contents(),
                     scheduled)
           && (reply.Accepted? <==> scheduled == [Analysis(a.job, a.run, rivals, ASetup)])
           && (reply.Accepted? <==> ok(0) && ok(1))
           && (reply.Accepted? ==>
                 && store.runs == old(store.runs)[a.job := Row(a.run, company.value, Queued, "queued", None)]
                 && store.competitors == old(store.competitors)[a.run := rivals] && store.reports == old(store.reports))
  {
    scheduled := [];
    if !readable {
      return Broke, [];
    }
    if company.None? {
      return Missing, [];
    }
    var from := Latest(store.Contents(), byFinish, company.value);
    if from.None? {
      return Refused, [];
    }
    var row := store.runs[from.value];
    var rivals := if row.id in store.competitors then store.competitors[row.id] else [];
    if rivals == [] {
      return Refused, [];
    }
    var s, t := store.Contents(), Refresh(rivals, company.value, "", "", RCreate);
    Advance(s, t, ok, a, 0);
    if !ok(0) {
      assert EndsAfter(s, t, ok, a, 1, store.Contents(), []);
      return Broke, [];
    }
    store.CreateRun(a.job, a.run, company.value);
    Advance(s, t, ok, a, 1);
    if !ok(1) {
      assert EndsAfter(s, t, ok, a, 2, store.Contents(), []);
      return Broke, [];
    }
    store.ReplaceCompetitors(a.run, rivals);
    Advance(s, t, ok, a, 2);
    scheduled := [Analysis(a.job, a.run, rivals, ASetup)];
    assert [] + scheduled == scheduled;
    assert EndsAfter(s, t, ok, a, 3, store.Contents(), scheduled);
    reply := Accepted;
  }
}
