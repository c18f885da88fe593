/** The two-phase run protocol (app/core/lifecycle.py, app/api/routes.py, app/api/companies_routes.py): any number of
    runs, each driven by a discovery task, racing confirm callers, refreshes and an analysis task, with one repository
    call as one atomic step. A failing call leaves the store unchanged and raises. */
module RunProtocol {
  import opened Wrappers
  import opened RunStore

  // ------------------------------------------------------------------ tasks

  datatype DiscoveryPc =
    | DSetup    // _emitter reads the row, outside the try
    | DBegin    // update_run_status running_discovery
    | DAnnounce // first ledger append
    | DPropose  // the discovery graph saves its competitors
    | DResolve  // set_run_company
    | DPark     // update_run_status awaiting_confirmation
    | DClose    // closing ledger append
    | DRescue   // fail_run in the handler
    | DOver

  datatype ConfirmPc = CCheck | CSwap | CReplace | CLaunch | CLost | COver

  datatype RefreshPc = RCreate | RReplace | RLaunch | RLost | ROver

  datatype AnalysisPc =
    | ASetup    // _emitter reads the row, outside the try
    | ABegin    // update_run_status running_analysis
    | AGather   // ledger append, company read, the analysis graph
    | ASave     // save_report
    | AFinish   // finish_run
    | ARescue   // fail_run in the handler
    | AOver     // bookkeeping whose failures are swallowed, then the end

  datatype Task =
    | Discovery(job: JobId, run: RunId, dpc: DiscoveryPc)
    | Confirm(job: JobId, list: seq<Competitor>, run: RunId, cpc: ConfirmPc)
    | Refresh(list: seq<Competitor>, company: string, job: JobId, run: RunId, rpc: RefreshPc)
    | Analysis(job: JobId, run: RunId, list: seq<Competitor>, apc: AnalysisPc)

  datatype World = World(store: Store, tasks: seq<Task>)

  const INIT := World(Store(map[], map[], map[]), [])

  /** What the environment decides: who arrives, whose call is next, whether it fails, what the agents answer. */
  datatype Action =
    | StartRun(job: JobId, run: RunId, company: string)
    | CallConfirm(job: JobId, list: seq<Competitor>)
    | CallRefresh(from: JobId)
    | Step(i: nat, ok: bool, answer: Answer)

  datatype Answer = Answer(proposal: seq<Competitor>, report: Report, job: JobId, run: RunId)

  // ------------------------------------------------------------------ the poll

  datatype Poll = NotFound | Unreadable | Shown(status: Status, result: Option<seq<Competitor>>, runId: Option<RunId>)

  /** `lifecycle.get_run`: CompetitorSet holds at most four rivals, so a longer list fails to validate. */
  function PollRun(s: Store, job: JobId): Poll {
    if job !in s.runs then NotFound
    else
      var row := s.runs[job];
      var listed := s.GetCompetitors(row.id);
      if |listed| > 4 then Unreadable
      else
        Shown(row.status,
              if listed != [] || DiscoveryDone(row.status) then Some(listed) else None,
              if row.status == Completed then Some(row.id) else None)
  }

  predicate DiscoveryDone(s: Status) {
    s == AwaitingConfirmation || s == ConfirmedRun || s == RunningAnalysis || s == Completed
  }

  // ------------------------------------------------------------------ steps

  function StepDiscovery(mayFail: bool, s: Store, t: Task, ok: bool, a: Answer): (Store, Task)
    requires t.Discovery?
  {
    match t.dpc
    case DSetup => (s, t.(dpc := if ok then DBegin else DOver))
    case DBegin =>
      if ok then (s.SetStatus(t.job, RunningDiscovery, "discovery"), t.(dpc := DAnnounce)) else (s, t.(dpc := DRescue))
    case DAnnounce => (s, t.(dpc := if ok then DPropose else DRescue))
    case DPropose => (if ok then s.SaveCompetitors(t.run, a.proposal) else s, t.(dpc := DResolve))
    case DResolve => (s, t.(dpc := if ok then DPark else DRescue))
    case DPark =>
      if ok then (s.SetStatus(t.job, AwaitingConfirmation, "awaiting_confirmation"), t.(dpc := DClose))
      else (s, t.(dpc := DRescue))
    case DClose => (s, t.(dpc := if ok || !mayFail then DOver else DRescue))
    case DRescue => (if ok then s.FailRun(t.job, "internal pipeline error") else s, t.(dpc := DOver))
    case DOver => (s, t)
  }

  function StepConfirm(s: Store, t: Task, ok: bool): (Store, Task, seq<Task>)
    requires t.Confirm?
  {
    match t.cpc
    case CCheck => (s, t.(cpc := if ok && PollRun(s, t.job).Shown? then CSwap else COver), [])
    case CSwap =>
      var (s', id) := s.ConfirmRun(t.job);
      if ok && id.Some? then (s', t.(cpc := CReplace, run := id.value), []) else (s, t.(cpc := COver), [])
    case CReplace =>
      if ok then (s.ReplaceCompetitors(t.run, t.list), t.(cpc := CLaunch), []) else (s, t.(cpc := CLost), [])
    case CLaunch => (s, t.(cpc := COver), [Analysis(t.job, t.run, t.list, ASetup)])
    case CLost => (s, t, [])
    case COver => (s, t, [])
  }

  ghost function StepRefresh(s: Store, t: Task, ok: bool, a: Answer): (Store, Task, seq<Task>)
    requires t.Refresh?
  {
    match t.rpc
    case RCreate =>
      if ok && s.Fresh(a.job, a.run)
      then (s.CreateRun(a.job, a.run, t.company), t.(rpc := RReplace, job := a.job, run := a.run), [])
      else (s, t.(rpc := ROver), [])
    case RReplace =>
      if ok then (s.ReplaceCompetitors(t.run, t.list), t.(rpc := RLaunch), []) else (s, t.(rpc := RLost), [])
    case RLaunch => (s, t.(rpc := ROver), [Analysis(t.job, t.run, t.list, ASetup)])
    case RLost => (s, t, [])
    case ROver => (s, t, [])
  }

  function StepAnalysis(s: Store, t: Task, ok: bool, a: Answer): (Store, Task)
    requires t.Analysis?
  {
    match t.apc
    case ASetup => (s, t.(apc := if ok then ABegin else AOver))
    case ABegin =>
      if ok then (s.SetStatus(t.job, RunningAnalysis, "news"), t.(apc := AGather)) else (s, t.(apc := ARescue))
    case AGather => (s, t.(apc := if ok then ASave else ARescue))
    case ASave => if ok then (s.SaveReport(t.run, a.report), t.(apc := AFinish)) else (s, t.(apc := ARescue))
    case AFinish => if ok then (s.FinishRun(t.job), t.(apc := AOver)) else (s, t.(apc := ARescue))
    case ARescue => (if ok then s.FailRun(t.job, "internal pipeline error") else s, t.(apc := AOver))
    case AOver => (s, t)
  }

  ghost function StepTask(mayFail: bool, s: Store, t: Task, ok: bool, a: Answer): (Store, Task, seq<Task>) {
    match t
    case Discovery(_, _, _) => var (s', t') := StepDiscovery(mayFail, s, t, ok, a); (s', t', [])
    case Confirm(_, _, _, _) => StepConfirm(s, t, ok)
    case Refresh(_, _, _, _, _) => StepRefresh(s, t, ok, a)
    case Analysis(_, _, _, _) => var (s', t') := StepAnalysis(s, t, ok, a); (s', t', [])
  }

  /** One atomic step; an action that is not possible changes nothing. `mayFail` says whether the ledger append with
      which discovery closes may fail. */
  ghost function Do(mayFail: bool, w: World, a: Action): World {
    var s := w.store;
    match a
    case StartRun(job, run, company) =>
      if s.Fresh(job, run)
      then World(s.CreateRun(job, run, company), w.tasks + [Discovery(job, run, DSetup)]) else w
    case CallConfirm(job, list) =>
      if list != [] then World(s, w.tasks + [Confirm(job, list, "", CCheck)]) else w
    case CallRefresh(from) =>
      if from in s.runs && s.runs[from].status == Completed && s.GetCompetitors(s.runs[from].id) != []
      then World(s, w.tasks + [Refresh(s.GetCompetitors(s.runs[from].id), s.runs[from].company, "", "", RCreate)])
      else w
    case Step(i, ok, answer) =>
      if i < |w.tasks|
      then var (s', t', more) := StepTask(mayFail, s, w.tasks[i], ok, answer); World(s', w.tasks[i := t'] + more)
      else w
  }

  ghost function Exec(mayFail: bool, w: World, actions: seq<Action>): World {
    if actions == [] then w
    else Do(mayFail, Exec(mayFail, w, actions[..|actions| - 1]), actions[|actions| - 1])
  }

  // ------------------------------------------------------------------ the invariant

  /** A discovery task that has not parked its run yet. */
  predicate Early(t: Task, job: JobId) {
    t.Discovery? && t.job == job && !t.dpc.DClose? && !t.dpc.DRescue? && !t.dpc.DOver?
  }

  /** A discovery task that may still write the status of its run. */
  predicate Writes(t: Task, job: JobId) {
    t.Discovery? && t.job == job && !t.dpc.DClose? && !t.dpc.DOver?
  }

  /** The one task that won the right to launch the analysis of `job`, or the analysis itself. */
  predicate Holds(t: Task, job: JobId) {
    match t
    case Discovery(_, _, _) => false
    case Confirm(j, _, _, pc) => j == job && (pc.CReplace? || pc.CLaunch? || pc.CLost?)
    case Refresh(_, _, j, _, pc) => j == job && (pc.RReplace? || pc.RLaunch? || pc.RLost?)
    case Analysis(j, _, _, _) => j == job
  }

  predicate Owns(s: Store, t: Task, job: JobId, run: RunId) {
    job in s.runs && s.runs[job].id == run
  }

  predicate Listed(s: Store, run: RunId, list: seq<Competitor>) {
    run in s.competitors && s.competitors[run] == list
  }

  /** What a task at its program point may rely on; the status part only while closing appends do not fail. */
  predicate TaskInv(mayFail: bool, s: Store, t: Task) {
    match t
    case Discovery(job, run, pc) =>
      && Owns(s, t, job, run)
      && (Early(t, job) ==> s.runs[job].status != AwaitingConfirmation)
      && (!mayFail ==>
            match pc
            case DSetup => s.runs[job].status == Queued
            case DBegin => s.runs[job].status == Queued
            case DRescue => s.runs[job].status == Queued || s.runs[job].status == RunningDiscovery
            case DClose => true
            case DOver => true
            case _ => s.runs[job].status == RunningDiscovery)
    case Confirm(job, list, run, pc) =>
      Holds(t, job) ==>
        && Owns(s, t, job, run)
        && s.runs[job].status != AwaitingConfirmation
        && (pc.CLaunch? ==> Listed(s, run, list))
        && (!mayFail ==> s.runs[job].status == ConfirmedRun)
    case Refresh(list, _, job, run, pc) =>
      Holds(t, job) ==>
        && Owns(s, t, job, run)
        && s.runs[job].status != AwaitingConfirmation
        && (pc.RLaunch? ==> Listed(s, run, list))
        && (!mayFail ==> s.runs[job].status == Queued)
    case Analysis(job, run, list, pc) =>
      && Owns(s, t, job, run)
      && s.runs[job].status != AwaitingConfirmation
      && Listed(s, run, list)
      && (pc.AFinish? ==> run in s.reports)
      && (!mayFail ==>
            var status := s.runs[job].status;
            match pc
            case ASetup => status == Queued || status == ConfirmedRun
            case ABegin => status == Queued || status == ConfirmedRun
            case ARescue => status == Queued || status == ConfirmedRun || status == RunningAnalysis
            case AOver => true
            case _ => status == RunningAnalysis)
  }

  ghost predicate DistinctIds(s: Store) {
    forall j, k :: j in s.runs && k in s.runs && s.runs[j].id == s.runs[k].id ==> j == k
  }

  ghost predicate Reported(s: Store) {
    forall j :: j in s.runs && s.runs[j].status == Completed ==> s.runs[j].id in s.reports
  }

  /** Task `t` neither holds `job` nor may still write its status. */
  predicate Idle(mayFail: bool, t: Task, job: JobId) {
    !Holds(t, job) && !Early(t, job) && (!mayFail ==> !Writes(t, job))
  }

  /** No task but `i` holds `job` or may still write its status. */
  ghost predicate Sole(mayFail: bool, tasks: seq<Task>, i: int, job: JobId) {
    forall k :: 0 <= k < |tasks| && k != i ==> Idle(mayFail, tasks[k], job)
  }

  ghost predicate Inv(mayFail: bool, w: World) {
    && DistinctIds(w.store)
    && Reported(w.store)
    && (forall i :: 0 <= i < |w.tasks| ==> TaskInv(mayFail, w.store, w.tasks[i]))
    && (forall i, job :: 0 <= i < |w.tasks| && !Idle(mayFail, w.tasks[i], job) ==> Sole(mayFail, w.tasks, i, job))
    && (forall job :: job in w.store.runs && w.store.runs[job].status == AwaitingConfirmation ==>
          Sole(mayFail, w.tasks, -1, job))
  }

  /** The stores agree except on what belongs to `job`; reports are only added. */
  ghost predicate OnlyTouches(s: Store, s': Store, job: JobId) {
    && (forall j :: j in s'.runs <==> j in s.runs || (j == job && j in s'.runs))
    && (forall j :: j in s.runs ==> j in s'.runs && s'.runs[j].id == s.runs[j].id)
    && (forall j :: j in s.runs && j != job ==> s'.runs[j] == s.runs[j])
    && (forall r :: (job !in s'.runs || r != s'.runs[job].id) ==>
          (r in s.competitors <==> r in s'.competitors) &&
          (r in s.competitors ==> s'.competitors[r] == s.competitors[r]))
    && (forall r :: r in s.reports ==> r in s'.reports)
  }

  // ------------------------------------------------------------------ every step keeps the invariant

  /** What task `t` may claim after a step of task `i`: whatever it holds or may write, no other task does. */
  ghost predicate Claims(mayFail: bool, tasks: seq<Task>, i: int, t: Task) {
    forall j :: !Idle(mayFail, t, j) ==> Sole(mayFail, tasks, i, j)
  }

  /** A task untouched by a step that concerns `job` only keeps its part of the invariant. */
  lemma OtherTask(mayFail: bool, s: Store, s': Store, t: Task, job: JobId)
    requires DistinctIds(s) && TaskInv(mayFail, s, t) && OnlyTouches(s, s', job) && DistinctIds(s')
    requires s' == s || Idle(mayFail, t, job)
    ensures TaskInv(mayFail, s', t)
  {
    if s' != s && !t.Refresh? && !t.Confirm? {
      assert t.job != job && job in s'.runs ==> s'.runs[t.job].id != s'.runs[job].id;
    }
  }

  lemma Preserve(mayFail: bool, w: World, i: nat, s': Store, t': Task, job: JobId)
    requires Inv(mayFail, w) && i < |w.tasks|
    requires OnlyTouches(w.store, s', job) && DistinctIds(s') && Reported(s')
    requires s' == w.store || Sole(mayFail, w.tasks, i, job)
    requires TaskInv(mayFail, s', t') && Claims(mayFail, w.tasks, i, t')
    requires forall j :: j in s'.runs && s'.runs[j].status == AwaitingConfirmation ==>
               Idle(mayFail, t', j) && Sole(mayFail, w.tasks, i, j)
    ensures Inv(mayFail, World(s', w.tasks[i := t']))
  {
    var tasks := w.tasks[i := t'];
    forall k | 0 <= k < |tasks| ensures TaskInv(mayFail, s', tasks[k]) {
      if k != i {
        assert tasks[k] == w.tasks[k];
        OtherTask(mayFail, w.store, s', tasks[k], job);
      }
    }
    forall k, j | 0 <= k < |tasks| && !Idle(mayFail, tasks[k], j) ensures Sole(mayFail, tasks, k, j) {
      assert k != i ==> Sole(mayFail, w.tasks, k, j);
    }
  }

  lemma Append(mayFail: bool, w: World, t: Task)
    requires Inv(mayFail, w) && TaskInv(mayFail, w.store, t) && Claims(mayFail, w.tasks, -1, t)
    requires forall j :: j in w.store.runs && w.store.runs[j].status == AwaitingConfirmation ==> Idle(mayFail, t, j)
    ensures Inv(mayFail, World(w.store, w.tasks + [t]))
  {
    var tasks := w.tasks + [t];
    forall k, j | 0 <= k < |tasks| && !Idle(mayFail, tasks[k], j) ensures Sole(mayFail, tasks, k, j) {
      assert k < |w.tasks| ==> Sole(mayFail, w.tasks, k, j);
    }
  }

  predicate Awaits(s: Store, job: JobId) {
    job in s.runs && s.runs[job].status == AwaitingConfirmation
  }

  /** What lets a task act on `job`: it holds it, or nobody can, because the run is new or still awaits a winner. */
  predicate Entitled(mayFail: bool, s: Store, t: Task, job: JobId) {
    !Idle(mayFail, t, job) || job !in s.runs || Awaits(s, job)
  }

  /** One task's step as seen by all the others. */
  ghost predicate LocalStep(mayFail: bool, s: Store, t: Task, s': Store, t': Task, job: JobId) {
    && OnlyTouches(s, s', job) && DistinctIds(s') && Reported(s')
    && TaskInv(mayFail, s', t')
    && (s' == s || Entitled(mayFail, s, t, job))
    && (forall j :: !Idle(mayFail, t', j) ==> Entitled(mayFail, s, t, j))
    && (forall j :: Awaits(s', j) ==> Idle(mayFail, t', j) && Entitled(mayFail, s, t, j))
  }

  lemma EntitledIsSole(mayFail: bool, w: World, i: nat, job: JobId)
    requires Inv(mayFail, w) && i < |w.tasks| && Entitled(mayFail, w.store, w.tasks[i], job)
    ensures Sole(mayFail, w.tasks, i, job)
  {
    if job !in w.store.runs {
      NobodyYet(mayFail, w, job);
    }
  }

  lemma LocalStepKeeps(mayFail: bool, w: World, i: nat, s': Store, t': Task, job: JobId)
    requires Inv(mayFail, w) && i < |w.tasks| && LocalStep(mayFail, w.store, w.tasks[i], s', t', job)
    ensures Inv(mayFail, World(s', w.tasks[i := t']))
  {
    forall j | Entitled(mayFail, w.store, w.tasks[i], j) ensures Sole(mayFail, w.tasks, i, j) {
      EntitledIsSole(mayFail, w, i, j);
    }
    Preserve(mayFail, w, i, s', t', job);
  }

  /** Launching moves the right to the run from the launcher to the new analysis task. */
  lemma LaunchKeeps(mayFail: bool, w: World, i: nat, t': Task, more: Task)
    requires Inv(mayFail, w) && i < |w.tasks| && more.Analysis? && !Idle(mayFail, w.tasks[i], more.job)
    requires TaskInv(mayFail, w.store, t') && forall j :: Idle(mayFail, t', j)
    requires TaskInv(mayFail, w.store, more)
    ensures Inv(mayFail, World(w.store, w.tasks[i := t'] + [more]))
  {
    assert LocalStep(mayFail, w.store, w.tasks[i], w.store, t', more.job) by {
      NotAwaiting(mayFail, w, i);
    }
    LocalStepKeeps(mayFail, w, i, w.store, t', more.job);
    Append(mayFail, World(w.store, w.tasks[i := t']), more);
  }

  /** A store that differs from `s` in what belongs to `job` and is as consistent as `s`. */
  ghost predicate GoodStore(s: Store, s': Store, job: JobId) {
    OnlyTouches(s, s', job) && DistinctIds(s') && Reported(s')
  }

  lemma StatusTouches(s: Store, job: JobId, status: Status, stage: string)
    requires DistinctIds(s) && Reported(s) && job in s.runs && (status == Completed ==> s.runs[job].id in s.reports)
    ensures GoodStore(s, s.SetStatus(job, status, stage), job)
  {
  }

  lemma FailTouches(s: Store, job: JobId, error: string)
    requires DistinctIds(s) && Reported(s) && job in s.runs
    ensures GoodStore(s, s.FailRun(job, error), job)
  {
  }

  lemma CreateTouches(s: Store, job: JobId, run: RunId, company: string)
    requires DistinctIds(s) && Reported(s) && s.Fresh(job, run)
    ensures GoodStore(s, s.CreateRun(job, run, company), job)
  {
  }

  lemma ListTouches(s: Store, job: JobId, rows: seq<Competitor>)
    requires DistinctIds(s) && Reported(s) && job in s.runs
    ensures GoodStore(s, s.SaveCompetitors(s.runs[job].id, rows), job)
    ensures GoodStore(s, s.ReplaceCompetitors(s.runs[job].id, rows), job)
  {
  }

  lemma ReportTouches(s: Store, job: JobId, run: RunId, report: Report)
    requires DistinctIds(s) && Reported(s)
    ensures GoodStore(s, s.SaveReport(run, report), job)
  {
  }

  /** The step of a task that ends up with `t'.job`, as far as that task and the status of that run go. */
  ghost predicate TaskMoves(mayFail: bool, s: Store, t: Task, s': Store, t': Task) {
    && TaskInv(mayFail, s', t')
    && (s' == s || Entitled(mayFail, s, t, t'.job))
    && (!Idle(mayFail, t', t'.job) ==> Entitled(mayFail, s, t, t'.job))
    && (Awaits(s', t'.job) ==> Idle(mayFail, t', t'.job) && Entitled(mayFail, s, t, t'.job))
  }

  /** Only the run that `t` ends up with matters. */
  lemma OneRun(mayFail: bool, s: Store, t: Task, s': Store, t': Task)
    requires GoodStore(s, s', t'.job) && TaskMoves(mayFail, s, t, s', t')
    ensures LocalStep(mayFail, s, t, s', t', t'.job)
  {
    forall j | j != t'.job ensures Idle(mayFail, t', j) && (Awaits(s', j) <==> Awaits(s, j)) {
    }
  }

  lemma DiscoveryStore(mayFail: bool, s: Store, t: Task, ok: bool, a: Answer)
    requires DistinctIds(s) && Reported(s) && t.Discovery? && TaskInv(mayFail, s, t)
    ensures GoodStore(s, StepDiscovery(mayFail, s, t, ok, a).0, t.job)
  {
    match t.dpc
    case DBegin => StatusTouches(s, t.job, RunningDiscovery, "discovery");
    case DPark => StatusTouches(s, t.job, AwaitingConfirmation, "awaiting_confirmation");
    case DPropose => ListTouches(s, t.job, a.proposal);
    case DRescue => FailTouches(s, t.job, "internal pipeline error");
    case _ =>
  }

  lemma DiscoveryTask(mayFail: bool, s: Store, t: Task, ok: bool, a: Answer)
    requires t.Discovery? && TaskInv(mayFail, s, t) && !(mayFail && t.dpc.DRescue?)
    requires Awaits(s, t.job) ==> Idle(mayFail, t, t.job)
    ensures TaskMoves(mayFail, s, t, StepDiscovery(mayFail, s, t, ok, a).0, StepDiscovery(mayFail, s, t, ok, a).1)
  {
  }

  lemma ConfirmStore(mayFail: bool, s: Store, t: Task, ok: bool)
    requires DistinctIds(s) && Reported(s) && t.Confirm? && TaskInv(mayFail, s, t)
    ensures GoodStore(s, StepConfirm(s, t, ok).0, t.job)
  {
    match t.cpc
    case CSwap =>
      if t.job in s.runs {
        StatusTouches(s, t.job, ConfirmedRun, "confirmed");
      }
    case CReplace => ListTouches(s, t.job, t.list);
    case _ =>
  }

  lemma ConfirmTask(mayFail: bool, s: Store, t: Task, ok: bool)
    requires t.Confirm? && TaskInv(mayFail, s, t) && !t.cpc.CLaunch?
    requires Awaits(s, t.job) ==> Idle(mayFail, t, t.job)
    ensures TaskMoves(mayFail, s, t, StepConfirm(s, t, ok).0, StepConfirm(s, t, ok).1)
  {
  }

  lemma AnalysisStore(mayFail: bool, s: Store, t: Task, ok: bool, a: Answer)
    requires DistinctIds(s) && Reported(s) && t.Analysis? && TaskInv(mayFail, s, t)
    ensures GoodStore(s, StepAnalysis(s, t, ok, a).0, t.job)
  {
    match t.apc
    case ABegin => StatusTouches(s, t.job, RunningAnalysis, "news");
    case ASave => ReportTouches(s, t.job, t.run, a.report);
    case AFinish => StatusTouches(s, t.job, Completed, "done");
    case ARescue => FailTouches(s, t.job, "internal pipeline error");
    case _ =>
  }

  lemma AnalysisTask(mayFail: bool, s: Store, t: Task, ok: bool, a: Answer)
    requires t.Analysis? && TaskInv(mayFail, s, t)
    requires Awaits(s, t.job) ==> Idle(mayFail, t, t.job)
    ensures TaskMoves(mayFail, s, t, StepAnalysis(s, t, ok, a).0, StepAnalysis(s, t, ok, a).1)
  {
  }

  lemma RefreshStore(mayFail: bool, s: Store, t: Task, ok: bool, a: Answer)
    requires DistinctIds(s) && Reported(s) && t.Refresh? && TaskInv(mayFail, s, t)
    ensures GoodStore(s, StepRefresh(s, t, ok, a).0, StepRefresh(s, t, ok, a).1.job)
  {
    match t.rpc
    case RCreate =>
      if s.Fresh(a.job, a.run) {
        CreateTouches(s, a.job, a.run, t.company);
      }
    case RReplace => ListTouches(s, t.job, t.list);
    case _ =>
  }

  lemma RefreshTask(mayFail: bool, s: Store, t: Task, ok: bool, a: Answer)
    requires t.Refresh? && TaskInv(mayFail, s, t) && !t.rpc.RLaunch?
    requires Awaits(s, t.job) ==> Idle(mayFail, t, t.job)
    ensures TaskMoves(mayFail, s, t, StepRefresh(s, t, ok, a).0, StepRefresh(s, t, ok, a).1)
  {
  }

  lemma NotAwaiting(mayFail: bool, w: World, i: nat)
    requires Inv(mayFail, w) && i < |w.tasks|
    ensures forall j :: Awaits(w.store, j) ==> Idle(mayFail, w.tasks[i], j)
  {
    forall j | Awaits(w.store, j) ensures Idle(mayFail, w.tasks[i], j) {
      assert Sole(mayFail, w.tasks, -1, j);
    }
  }

  /** The rescue of a discovery whose closing append failed may fail any run, whatever its state. */
  lemma LateRescueKeeps(w: World, i: nat, s': Store, t': Task)
    requires Inv(true, w) && i < |w.tasks| && w.tasks[i].Discovery? && t' == w.tasks[i].(dpc := DOver)
    requires s' == w.store || s' == w.store.FailRun(t'.job, "internal pipeline error")
    requires forall k :: 0 <= k < |w.tasks| && k != i ==> TaskInv(true, s', w.tasks[k])
    ensures Inv(true, World(s', w.tasks[i := t']))
  {
    assert TaskInv(true, w.store, w.tasks[i]);
    var tasks := w.tasks[i := t'];
    forall k, j | 0 <= k < |tasks| && !Idle(true, tasks[k], j) ensures Sole(true, tasks, k, j) {
      assert Sole(true, w.tasks, k, j);
    }
    forall j | Awaits(s', j) ensures Sole(true, tasks, -1, j) {
      assert Sole(true, w.tasks, -1, j);
    }
  }

  lemma LateRescueOther(s: Store, t: Task, job: JobId)
    requires TaskInv(true, s, t)
    ensures TaskInv(true, s.FailRun(job, "internal pipeline error"), t)
  {
  }

  /** Every task that holds or may write a run belongs to a run that exists. */
  lemma NobodyYet(mayFail: bool, w: World, job: JobId)
    requires Inv(mayFail, w) && job !in w.store.runs
    ensures Sole(mayFail, w.tasks, -1, job)
  {
    forall k | 0 <= k < |w.tasks| ensures Idle(mayFail, w.tasks[k], job) {
      assert TaskInv(mayFail, w.store, w.tasks[k]);
    }
  }

  lemma ArrivalKeeps(mayFail: bool, w: World, a: Action)
    requires Inv(mayFail, w) && !a.Step?
    ensures Inv(mayFail, Do(mayFail, w, a))
  {
    match a
    case StartRun(job, run, company) =>
      if w.store.Fresh(job, run) {
        NobodyYet(mayFail, w, job);
        var s' := w.store.CreateRun(job, run, company);
        assert forall k :: 0 <= k < |w.tasks| ==> TaskInv(mayFail, s', w.tasks[k]) by {
          forall k | 0 <= k < |w.tasks| ensures TaskInv(mayFail, s', w.tasks[k]) {
            OtherTask(mayFail, w.store, s', w.tasks[k], job);
          }
        }
        Append(mayFail, World(s', w.tasks), Discovery(job, run, DSetup));
      }
    case CallConfirm(job, list) =>
      if list != [] {
        Append(mayFail, w, Confirm(job, list, "", CCheck));
      }
    case CallRefresh(from) =>
      if Do(mayFail, w, a) != w {
        Append(mayFail, w, Do(mayFail, w, a).tasks[|w.tasks|]);
      }
  }

  lemma DiscoveryKeeps(mayFail: bool, w: World, i: nat, ok: bool, a: Answer)
    requires Inv(mayFail, w) && i < |w.tasks| && w.tasks[i].Discovery? && !(mayFail && w.tasks[i].dpc.DRescue?)
    ensures var r := StepDiscovery(mayFail, w.store, w.tasks[i], ok, a);
      Inv(mayFail, World(r.0, w.tasks[i := r.1]))
  {
    var s, t := w.store, w.tasks[i];
    NotAwaiting(mayFail, w, i);
    DiscoveryStore(mayFail, s, t, ok, a);
    DiscoveryTask(mayFail, s, t, ok, a);
    var r := StepDiscovery(mayFail, w.store, w.tasks[i], ok, a);
    OneRun(mayFail, s, t, r.0, r.1);
    LocalStepKeeps(mayFail, w, i, r.0, r.1, r.1.job);
  }

  lemma ConfirmKeeps(mayFail: bool, w: World, i: nat, ok: bool, a: Answer)
    requires Inv(mayFail, w) && i < |w.tasks| && w.tasks[i].Confirm? && !w.tasks[i].cpc.CLaunch?
    ensures var r := StepConfirm(w.store, w.tasks[i], ok);
      Inv(mayFail, World(r.0, w.tasks[i := r.1]))
  {
    var s, t := w.store, w.tasks[i];
    NotAwaiting(mayFail, w, i);
    ConfirmStore(mayFail, s, t, ok);
    ConfirmTask(mayFail, s, t, ok);
    var r := StepConfirm(w.store, w.tasks[i], ok);
    OneRun(mayFail, s, t, r.0, r.1);
    LocalStepKeeps(mayFail, w, i, r.0, r.1, r.1.job);
  }

  lemma RefreshKeeps(mayFail: bool, w: World, i: nat, ok: bool, a: Answer)
    requires Inv(mayFail, w) && i < |w.tasks| && w.tasks[i].Refresh? && !w.tasks[i].rpc.RLaunch?
    ensures var r := StepRefresh(w.store, w.tasks[i], ok, a);
      Inv(mayFail, World(r.0, w.tasks[i := r.1]))
  {
    var s, t := w.store, w.tasks[i];
    NotAwaiting(mayFail, w, i);
    RefreshStore(mayFail, s, t, ok, a);
    RefreshTask(mayFail, s, t, ok, a);
    var r := StepRefresh(w.store, w.tasks[i], ok, a);
    OneRun(mayFail, s, t, r.0, r.1);
    LocalStepKeeps(mayFail, w, i, r.0, r.1, r.1.job);
  }

  lemma AnalysisKeeps(mayFail: bool, w: World, i: nat, ok: bool, a: Answer)
    requires Inv(mayFail, w) && i < |w.tasks| && w.tasks[i].Analysis?
    ensures var r := StepAnalysis(w.store, w.tasks[i], ok, a);
      Inv(mayFail, World(r.0, w.tasks[i := r.1]))
  {
    var s, t := w.store, w.tasks[i];
    NotAwaiting(mayFail, w, i);
    AnalysisStore(mayFail, s, t, ok, a);
    AnalysisTask(mayFail, s, t, ok, a);
    var r := StepAnalysis(w.store, w.tasks[i], ok, a);
    OneRun(mayFail, s, t, r.0, r.1);
    LocalStepKeeps(mayFail, w, i, r.0, r.1, r.1.job);
  }

  lemma RescueKeeps(w: World, i: nat, ok: bool, a: Answer)
    requires Inv(true, w) && i < |w.tasks| && w.tasks[i].Discovery? && w.tasks[i].dpc.DRescue?
    ensures var r := StepDiscovery(true, w.store, w.tasks[i], ok, a);
      Inv(true, World(r.0, w.tasks[i := r.1]))
  {
    var t := w.tasks[i];
    var (s', t') := StepDiscovery(true, w.store, t, ok, a);
    forall k | 0 <= k < |w.tasks| && k != i ensures TaskInv(true, s', w.tasks[k]) {
      LateRescueOther(w.store, w.tasks[k], t.job);
    }
    LateRescueKeeps(w, i, s', t');
  }

  lemma ConfirmLaunchKeeps(mayFail: bool, w: World, i: nat, ok: bool, a: Answer)
    requires Inv(mayFail, w) && i < |w.tasks| && w.tasks[i].Confirm? && w.tasks[i].cpc.CLaunch?
    ensures Inv(mayFail, Do(mayFail, w, Step(i, ok, a)))
  {
    var t := w.tasks[i];
    assert TaskInv(mayFail, w.store, t);
    LaunchKeeps(mayFail, w, i, t.(cpc := COver), Analysis(t.job, t.run, t.list, ASetup));
  }

  lemma RefreshLaunchKeeps(mayFail: bool, w: World, i: nat, ok: bool, a: Answer)
    requires Inv(mayFail, w) && i < |w.tasks| && w.tasks[i].Refresh? && w.tasks[i].rpc.RLaunch?
    ensures Inv(mayFail, Do(mayFail, w, Step(i, ok, a)))
  {
    var t := w.tasks[i];
    assert TaskInv(mayFail, w.store, t);
    LaunchKeeps(mayFail, w, i, t.(rpc := ROver), Analysis(t.job, t.run, t.list, ASetup));
  }

  lemma StepKeeps(mayFail: bool, w: World, i: nat, ok: bool, a: Answer)
    requires Inv(mayFail, w) && i < |w.tasks|
    ensures Inv(mayFail, Do(mayFail, w, Step(i, ok, a)))
  {
    var t := w.tasks[i];
    if t.Confirm? && t.cpc.CLaunch? {
      ConfirmLaunchKeeps(mayFail, w, i, ok, a);
    } else if t.Refresh? && t.rpc.RLaunch? {
      RefreshLaunchKeeps(mayFail, w, i, ok, a);
    } else {
      var r := StepTask(mayFail, w.store, t, ok, a);
      assert w.tasks[i := r.1] + [] == w.tasks[i := r.1];
      match t
      case Discovery(_, _, pc) =>
        if mayFail && pc.DRescue? {
          RescueKeeps(w, i, ok, a);
        } else {
          DiscoveryKeeps(mayFail, w, i, ok, a);
        }
      case Confirm(_, _, _, _) => ConfirmKeeps(mayFail, w, i, ok, a);
      case Refresh(_, _, _, _, _) => RefreshKeeps(mayFail, w, i, ok, a);
      case Analysis(_, _, _, _) => AnalysisKeeps(mayFail, w, i, ok, a);
    }
  }

  lemma DoKeeps(mayFail: bool, w: World, a: Action)
    requires Inv(mayFail, w)
    ensures Inv(mayFail, Do(mayFail, w, a))
  {
    if !a.Step? {
      ArrivalKeeps(mayFail, w, a);
    } else if a.i < |w.tasks| {
      StepKeeps(mayFail, w, a.i, a.ok, a.answer);
    }
  }

  /** The invariant holds in every reachable state. */
  lemma {:induction false} ExecKeeps(mayFail: bool, actions: seq<Action>)
    ensures Inv(mayFail, Exec(mayFail, INIT, actions))
  {
    if actions != [] {
      ExecKeeps(mayFail, actions[..|actions| - 1]);
      DoKeeps(mayFail, Exec(mayFail, INIT, actions[..|actions| - 1]), actions[|actions| - 1]);
    }
  }

  // ------------------------------------------------------------------ one launch, one list

  /** In every reachable state, whether or not closing appends fail, a run has at most one analysis task, and at most
      one confirm or refresh call ever gets past its compare-and-swap or creation. */
  lemma LaunchedAtMostOnce(mayFail: bool, actions: seq<Action>, job: JobId, i: nat, k: nat)
    requires var tasks := Exec(mayFail, INIT, actions).tasks;
      i < |tasks| && k < |tasks| && Holds(tasks[i], job) && Holds(tasks[k], job)
    ensures i == k
  {
    ExecKeeps(mayFail, actions);
    var w := Exec(mayFail, INIT, actions);
    assert !Idle(mayFail, w.tasks[i], job) && Sole(mayFail, w.tasks, i, job);
  }

  /** Task `t` holds `job`, has written `list` for `run`, and passes exactly that on. */
  predicate Carries(t: Task, job: JobId, run: RunId, list: seq<Competitor>) {
    match t
    case Discovery(_, _, _) => false
    case Confirm(j, l, r, pc) => pc.CLaunch? && j == job && l == list && r == run
    case Refresh(l, _, j, r, pc) => pc.RLaunch? && j == job && l == list && r == run
    case Analysis(j, r, l, _) => j == job && l == list && r == run
  }

  ghost predicate Carried(w: World, job: JobId, run: RunId, list: seq<Competitor>) {
    exists i :: 0 <= i < |w.tasks| && Carries(w.tasks[i], job, run, list)
  }

  lemma DoCarries(mayFail: bool, w: World, a: Action, job: JobId, run: RunId, list: seq<Competitor>)
    requires Carried(w, job, run, list)
    ensures Carried(Do(mayFail, w, a), job, run, list)
  {
    var i :| 0 <= i < |w.tasks| && Carries(w.tasks[i], job, run, list);
    var w' := Do(mayFail, w, a);
    if a.Step? && a.i == i && !w.tasks[i].Analysis? {
      assert Carries(w'.tasks[|w.tasks|], job, run, list);
    } else {
      assert Carries(w'.tasks[i], job, run, list);
    }
  }

  lemma {:induction false} ExecCarries(mayFail: bool, before: seq<Action>, after: seq<Action>, job: JobId, run: RunId,
                                       list: seq<Competitor>)
    requires Carried(Exec(mayFail, INIT, before), job, run, list)
    ensures Carried(Exec(mayFail, INIT, before + after), job, run, list)
  {
    if after == [] {
      assert before + after == before;
    } else {
      var init := after[..|after| - 1];
      assert (before + after)[..|before + after| - 1] == before + init;
      ExecCarries(mayFail, before, init, job, run, list);
      DoCarries(mayFail, Exec(mayFail, INIT, before + init), after[|after| - 1], job, run, list);
    }
  }

  /** From the winner's replace step on, for the rest of the run, the stored list is the winner's list, and it is the
      list every analysis of that run is handed. */
  lemma ListIsKept(mayFail: bool, before: seq<Action>, after: seq<Action>, job: JobId, run: RunId,
                   list: seq<Competitor>, i: nat)
    requires var tasks := Exec(mayFail, INIT, before).tasks; i < |tasks| && Carries(tasks[i], job, run, list)
    ensures var w := Exec(mayFail, INIT, before + after);
      && Listed(w.store, run, list)
      && forall k :: 0 <= k < |w.tasks| && w.tasks[k].Analysis? && w.tasks[k].job == job ==>
           w.tasks[k].list == list && w.tasks[k].run == run
  {
    ExecCarries(mayFail, before, after, job, run, list);
    ExecKeeps(mayFail, before + after);
    var w := Exec(mayFail, INIT, before + after);
    var c :| 0 <= c < |w.tasks| && Carries(w.tasks[c], job, run, list);
    assert TaskInv(mayFail, w.store, w.tasks[c]) && !Idle(mayFail, w.tasks[c], job);
    forall k | 0 <= k < |w.tasks| && w.tasks[k].Analysis? && w.tasks[k].job == job ensures k == c {
      LaunchedAtMostOnce(mayFail, before + after, job, k, c);
    }
  }

  /** The poll of a confirmed run works exactly while the confirmed list fits the proposal cap of four. */
  lemma LongListBlindsThePoller(mayFail: bool, before: seq<Action>, after: seq<Action>, job: JobId, run: RunId,
                                list: seq<Competitor>, i: nat)
    requires var tasks := Exec(mayFail, INIT, before).tasks; i < |tasks| && Carries(tasks[i], job, run, list)
    ensures PollRun(Exec(mayFail, INIT, before + after).store, job).Unreadable? <==> |list| > 4
  {
    ListIsKept(mayFail, before, after, job, run, list, i);
    ExecCarries(mayFail, before, after, job, run, list);
    ExecKeeps(mayFail, before + after);
    var w := Exec(mayFail, INIT, before + after);
    var c :| 0 <= c < |w.tasks| && Carries(w.tasks[c], job, run, list);
    assert TaskInv(mayFail, w.store, w.tasks[c]);
  }

  // ------------------------------------------------------------------ forward only

  /** The documented order. */
  function Rank(s: Status): nat {
    match s
    case Queued => 0
    case RunningDiscovery => 1
    case AwaitingConfirmation => 2
    case ConfirmedRun => 3
    case RunningAnalysis => 4
    case Completed => 5
    case Failed => 5
  }

  predicate Forward(s: Status, s': Status) {
    s == s' || Rank(s) < Rank(s')
  }

  ghost predicate AllForward(s: Store, s': Store) {
    forall j :: j in s.runs ==> j in s'.runs && s'.runs[j].id == s.runs[j].id &&
                                Forward(s.runs[j].status, s'.runs[j].status)
  }

  lemma DiscoveryForward(s: Store, t: Task, ok: bool, a: Answer)
    requires t.Discovery? && TaskInv(false, s, t)
    ensures AllForward(s, StepDiscovery(false, s, t, ok, a).0)
  {
  }

  lemma ConfirmForward(s: Store, t: Task, ok: bool)
    requires t.Confirm? && TaskInv(false, s, t)
    ensures AllForward(s, StepConfirm(s, t, ok).0)
  {
  }

  lemma AnalysisForward(s: Store, t: Task, ok: bool, a: Answer)
    requires t.Analysis? && TaskInv(false, s, t)
    ensures AllForward(s, StepAnalysis(s, t, ok, a).0)
  {
  }

  lemma TaskForward(s: Store, t: Task, ok: bool, a: Answer)
    requires TaskInv(false, s, t)
    ensures AllForward(s, StepTask(false, s, t, ok, a).0)
  {
    match t
    case Discovery(_, _, _) => DiscoveryForward(s, t, ok, a);
    case Confirm(_, _, _, _) => ConfirmForward(s, t, ok);
    case Refresh(_, _, _, _, _) =>
    case Analysis(_, _, _, _) => AnalysisForward(s, t, ok, a);
  }

  lemma DoForward(w: World, a: Action)
    requires Inv(false, w)
    ensures AllForward(w.store, Do(false, w, a).store)
  {
    if a.Step? && a.i < |w.tasks| {
      assert TaskInv(false, w.store, w.tasks[a.i]);
      TaskForward(w.store, w.tasks[a.i], a.ok, a.answer);
    }
  }

  lemma ForwardChain(s: Store, s': Store, s'': Store)
    requires AllForward(s, s') && AllForward(s', s'')
    ensures AllForward(s, s'')
  {
  }

  /** While closing appends do not fail, every run moves only forward in the documented order, and a completed or
      failed run stays as it is. */
  lemma {:induction false} RunsMoveForward(before: seq<Action>, after: seq<Action>)
    ensures AllForward(Exec(false, INIT, before).store, Exec(false, INIT, before + after).store)
  {
    if after == [] {
      assert before + after == before;
    } else {
      var init := after[..|after| - 1];
      assert (before + after)[..|before + after| - 1] == before + init;
      RunsMoveForward(before, init);
      ExecKeeps(false, before + init);
      var w := Exec(false, INIT, before + init);
      DoForward(w, after[|after| - 1]);
      ForwardChain(Exec(false, INIT, before).store, w.store, Do(false, w, after[|after| - 1]).store);
    }
  }

  /** Whatever fails, a run that the poller shows with a run id has a stored report. */
  lemma ShownRunHasReport(mayFail: bool, actions: seq<Action>, job: JobId)
    requires var p := PollRun(Exec(mayFail, INIT, actions).store, job); p.Shown? && p.runId.Some?
    ensures var s := Exec(mayFail, INIT, actions).store; PollRun(s, job).runId.value in s.reports
  {
    ExecKeeps(mayFail, actions);
  }

  ghost predicate KeepsCompleted(mayFail: bool, before: seq<Action>, after: seq<Action>, job: JobId) {
    var s, s' := Exec(mayFail, INIT, before).store, Exec(mayFail, INIT, before + after).store;
    job in s.runs && s.runs[job].status == Completed ==> job in s'.runs && s'.runs[job].status == Completed
  }

  // A run whose closing append fails after the analysis has completed it.

  const RIVAL := Competitor("Globex", "direct", "")
  const NOTHING := Answer([], Report("LOW", ""), "", "")

  function Go(i: nat): Action {
    Step(i, true, NOTHING)
  }

  ghost predicate Reaches(mayFail: bool, w: World) {
    exists actions :: Exec(mayFail, INIT, actions) == w
  }

  lemma ReachStep(mayFail: bool, w: World, a: Action)
    requires Reaches(mayFail, w)
    ensures Reaches(mayFail, Do(mayFail, w, a))
  {
    var actions :| Exec(mayFail, INIT, actions) == w;
    assert (actions + [a])[..|actions|] == actions;
    assert Exec(mayFail, INIT, actions + [a]) == Do(mayFail, w, a);
  }

  /** One successful step of task `i`. */
  lemma Hop(w: World, i: nat, s': Store, t': Task, more: seq<Task>)
    requires Reaches(true, w) && i < |w.tasks|
    requires StepTask(true, w.store, w.tasks[i], true, NOTHING) == (s', t', more)
    ensures Reaches(true, World(s', w.tasks[i := t'] + more))
  {
    ReachStep(true, w, Go(i));
  }

  function Rows(status: Status, stage: string): map<JobId, Row> {
    map["j" := Row("r", "acme", status, stage, None)]
  }

  /** A status write on the only row. */
  lemma RowsSet(status: Status, stage: string, status': Status, stage': string)
    ensures Rows(status, stage)["j" := Rows(status, stage)["j"].(status := status', stage := stage')] == Rows(status', stage')
  {
  }

  // The run while discovery has it.

  function InDiscovery(status: Status, stage: string, pc: DiscoveryPc): World {
    World(Store(Rows(status, stage), map[], map[]), [Discovery("j", "r", pc)])
  }

  lemma DiscoveryHop(status: Status, stage: string, pc: DiscoveryPc, status': Status, stage': string, pc': DiscoveryPc)
    requires Reaches(true, InDiscovery(status, stage, pc))
    requires StepTask(true, InDiscovery(status, stage, pc).store, Discovery("j", "r", pc), true, NOTHING)
          == (InDiscovery(status', stage', pc').store, Discovery("j", "r", pc'), [])
    ensures Reaches(true, InDiscovery(status', stage', pc'))
  {
    var w, w' := InDiscovery(status, stage, pc), InDiscovery(status', stage', pc');
    Hop(w, 0, w'.store, w'.tasks[0], []);
    assert w.tasks[0 := w'.tasks[0]] + [] == w'.tasks;
  }

  lemma DiscoveryStarts()
    ensures Reaches(true, InDiscovery(Queued, "queued", DSetup))
  {
    assert Exec(true, INIT, []) == INIT;
    ReachStep(true, INIT, StartRun("j", "r", "acme"));
    assert Do(true, INIT, StartRun("j", "r", "acme")) == InDiscovery(Queued, "queued", DSetup);
  }

  lemma DiscoveryRuns()
    ensures Reaches(true, InDiscovery(RunningDiscovery, "discovery", DPropose))
  {
    DiscoveryStarts();
    DiscoveryHop(Queued, "queued", DSetup, Queued, "queued", DBegin);
    RowsSet(Queued, "queued", RunningDiscovery, "discovery");
    DiscoveryHop(Queued, "queued", DBegin, RunningDiscovery, "discovery", DAnnounce);
    DiscoveryHop(RunningDiscovery, "discovery", DAnnounce, RunningDiscovery, "discovery", DPropose);
  }

  lemma DiscoveryParks()
    ensures Reaches(true, InDiscovery(AwaitingConfirmation, "awaiting_confirmation", DClose))
  {
    DiscoveryRuns();
    DiscoveryHop(RunningDiscovery, "discovery", DPropose, RunningDiscovery, "discovery", DResolve);
    DiscoveryHop(RunningDiscovery, "discovery", DResolve, RunningDiscovery, "discovery", DPark);
    RowsSet(RunningDiscovery, "discovery", AwaitingConfirmation, "awaiting_confirmation");
    DiscoveryHop(RunningDiscovery, "discovery", DPark, AwaitingConfirmation, "awaiting_confirmation", DClose);
  }

  // The run while a confirm call has it.

  function Confirming(status: Status, stage: string, listed: map<RunId, seq<Competitor>>, run: RunId, pc: ConfirmPc): World {
    World(Store(Rows(status, stage), listed, map[]), [Discovery("j", "r", DClose), Confirm("j", [RIVAL], run, pc)])
  }

  lemma ConfirmHop(w: World, w': World)
    requires Reaches(true, w) && |w.tasks| == |w'.tasks| == 2 && w.tasks[0] == w'.tasks[0]
    requires StepTask(true, w.store, w.tasks[1], true, NOTHING) == (w'.store, w'.tasks[1], [])
    ensures Reaches(true, w')
  {
    Hop(w, 1, w'.store, w'.tasks[1], []);
    assert w.tasks[1 := w'.tasks[1]] + [] == w'.tasks;
  }

  lemma ConfirmArrives()
    ensures Reaches(true, Confirming(AwaitingConfirmation, "awaiting_confirmation", map[], "", CSwap))
  {
    DiscoveryParks();
    var w := InDiscovery(AwaitingConfirmation, "awaiting_confirmation", DClose);
    ReachStep(true, w, CallConfirm("j", [RIVAL]));
    var w' := Confirming(AwaitingConfirmation, "awaiting_confirmation", map[], "", CCheck);
    assert Do(true, w, CallConfirm("j", [RIVAL])) == w';
    ConfirmHop(w', Confirming(AwaitingConfirmation, "awaiting_confirmation", map[], "", CSwap));
  }

  lemma ConfirmWins()
    ensures Reaches(true, Confirming(ConfirmedRun, "confirmed", map["r" := [RIVAL]], "r", CLaunch))
  {
    ConfirmArrives();
    RowsSet(AwaitingConfirmation, "awaiting_confirmation", ConfirmedRun, "confirmed");
    ConfirmHop(Confirming(AwaitingConfirmation, "awaiting_confirmation", map[], "", CSwap),
               Confirming(ConfirmedRun, "confirmed", map[], "r", CReplace));
    ConfirmHop(Confirming(ConfirmedRun, "confirmed", map[], "r", CReplace),
               Confirming(ConfirmedRun, "confirmed", map["r" := [RIVAL]], "r", CLaunch));
  }

  // The run while its analysis has it.

  function Analyzing(status: Status, stage: string, reports: map<RunId, Report>, pc: AnalysisPc): World {
    World(Store(Rows(status, stage), map["r" := [RIVAL]], reports),
          [Discovery("j", "r", DClose), Confirm("j", [RIVAL], "r", COver), Analysis("j", "r", [RIVAL], pc)])
  }

  lemma AnalysisHop(w: World, w': World)
    requires Reaches(true, w) && |w.tasks| == |w'.tasks| == 3 && w.tasks[0] == w'.tasks[0] && w.tasks[1] == w'.tasks[1]
    requires StepTask(true, w.store, w.tasks[2], true, NOTHING) == (w'.store, w'.tasks[2], [])
    ensures Reaches(true, w')
  {
    Hop(w, 2, w'.store, w'.tasks[2], []);
    assert w.tasks[2 := w'.tasks[2]] + [] == w'.tasks;
  }

  lemma ConfirmLaunches()
    ensures Reaches(true, Analyzing(ConfirmedRun, "confirmed", map[], ASetup))
  {
    ConfirmWins();
    var w := Confirming(ConfirmedRun, "confirmed", map["r" := [RIVAL]], "r", CLaunch);
    var w' := Analyzing(ConfirmedRun, "confirmed", map[], ASetup);
    Hop(w, 1, w.store, w'.tasks[1], [w'.tasks[2]]);
    assert w.tasks[1 := w'.tasks[1]] + [w'.tasks[2]] == w'.tasks;
  }

  lemma AnalysisRuns()
    ensures Reaches(true, Analyzing(RunningAnalysis, "news", map[], ASave))
  {
    ConfirmLaunches();
    AnalysisHop(Analyzing(ConfirmedRun, "confirmed", map[], ASetup), Analyzing(ConfirmedRun, "confirmed", map[], ABegin));
    RowsSet(ConfirmedRun, "confirmed", RunningAnalysis, "news");
    AnalysisHop(Analyzing(ConfirmedRun, "confirmed", map[], ABegin), Analyzing(RunningAnalysis, "news", map[], AGather));
    AnalysisHop(Analyzing(RunningAnalysis, "news", map[], AGather), Analyzing(RunningAnalysis, "news", map[], ASave));
  }

  function Done(): World {
    Analyzing(Completed, "done", map["r" := NOTHING.report], AOver)
  }

  lemma AnalysisCompletes()
    ensures Reaches(true, Done())
  {
    AnalysisRuns();
    var saved: map<RunId, Report> := map["r" := NOTHING.report];
    AnalysisHop(Analyzing(RunningAnalysis, "news", map[], ASave), Analyzing(RunningAnalysis, "news", saved, AFinish));
    RowsSet(RunningAnalysis, "news", Completed, "done");
    AnalysisHop(Analyzing(RunningAnalysis, "news", saved, AFinish), Done());
  }

  /** Discovery's closing append fails once the run is completed: the handler then fails the completed run. */
  lemma LateFailure(before: seq<Action>)
    requires Exec(true, INIT, before) == Done()
    ensures !KeepsCompleted(true, before, [Step(0, false, NOTHING), Go(0)], "j")
  {
    var late := Step(0, false, NOTHING);
    assert (before + [late])[..|before|] == before;
    assert (before + [late, Go(0)])[..|before| + 1] == before + [late];
    var w := Do(true, Done(), late);
    assert w.tasks[0] == Discovery("j", "r", DRescue) && w.store == Done().store;
    assert Do(true, w, Go(0)).store.runs["j"].status == Failed;
    assert Exec(true, INIT, before + [late, Go(0)]) == Do(true, w, Go(0));
  }

  /** `completed` is never left, in any execution, exactly when the ledger append that closes discovery cannot fail. */
  lemma CompletedIsKeptIff(mayFail: bool)
    ensures (forall before, after, job :: KeepsCompleted(mayFail, before, after, job)) <==> !mayFail
  {
    if mayFail {
      AnalysisCompletes();
      var before :| Exec(true, INIT, before) == Done();
      LateFailure(before);
    } else {
      forall before, after, job ensures KeepsCompleted(false, before, after, job) {
        RunsMoveForward(before, after);
      }
    }
  }
}
