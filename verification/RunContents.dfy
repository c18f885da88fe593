/** What the protocol stores: the report of a run is the one that its analysis came up with, and its list is the one that
    its discovery proposed until a winner replaces it; and what the poll shows of both. */
module RunContents {
  import opened Wrappers
  import opened RunStore
  import opened RunProtocol

  // ------------------------------------------------------------------ what one step writes

  /** The one step that writes a report: the save of an analysis, which writes what its graph answered. */
  predicate SavesNow(t: Task, ok: bool) {
    t.Analysis? && t.apc.ASave? && ok
  }

  lemma ReportsAfter(mayFail: bool, s: Store, t: Task, ok: bool, a: Answer)
    ensures StepTask(mayFail, s, t, ok, a).0.reports
         == if SavesNow(t, ok) then s.reports[t.run := a.report] else s.reports
  {
  }

  /** The steps that write a list: discovery adds its proposal, a winner and a refresh put theirs in place. */
  predicate ProposesNow(t: Task, ok: bool) {
    t.Discovery? && t.dpc.DPropose? && ok
  }

  predicate ReplacesNow(t: Task, ok: bool) {
    ok && ((t.Confirm? && t.cpc.CReplace?) || (t.Refresh? && t.rpc.RReplace?))
  }

  lemma ListsAfter(mayFail: bool, s: Store, t: Task, ok: bool, a: Answer)
    ensures var s' := StepTask(mayFail, s, t, ok, a).0;
      && (forall r :: !((ProposesNow(t, ok) || ReplacesNow(t, ok)) && r == t.run) ==>
            (r in s'.competitors <==> r in s.competitors) && s'.GetCompetitors(r) == s.GetCompetitors(r))
      && (ProposesNow(t, ok) ==> s'.GetCompetitors(t.run) == s.GetCompetitors(t.run) + a.proposal)
      && (ReplacesNow(t, ok) ==> s'.GetCompetitors(t.run) == t.list)
  {
  }

  lemma StepsTask(mayFail: bool, w: World, i: nat, ok: bool, a: Answer)
    requires i < |w.tasks|
    ensures var w' := Do(mayFail, w, Step(i, ok, a));
      && w'.store == StepTask(mayFail, w.store, w.tasks[i], ok, a).0
      && |w'.tasks| >= |w.tasks|
      && (forall k :: 0 <= k < |w.tasks| && k != i ==> w'.tasks[k] == w.tasks[k])
      && w'.tasks[i] == StepTask(mayFail, w.store, w.tasks[i], ok, a).1
  {
  }

  /** Two tasks that own the same run are on the same job. */
  lemma SameJob(mayFail: bool, w: World, i: nat, k: nat)
    requires Inv(mayFail, w) && i < |w.tasks| && k < |w.tasks|
    requires Owns(w.store, w.tasks[i], w.tasks[i].job, w.tasks[i].run) && w.tasks[i].run == w.tasks[k].run
    requires Owns(w.store, w.tasks[k], w.tasks[k].job, w.tasks[k].run)
    ensures w.tasks[i].job == w.tasks[k].job
  {
  }

  // ------------------------------------------------------------------ the report

  /** An analysis beyond its save. */
  predicate Beyond(pc: AnalysisPc) {
    pc.AFinish? || pc.ARescue? || pc.AOver?
  }

  /** Task `i` is beyond saving `report` as the report of `run`, and there it is. */
  ghost predicate SavedBy(w: World, i: nat, run: RunId, report: Report) {
    && i < |w.tasks| && w.tasks[i].Analysis? && w.tasks[i].run == run && Beyond(w.tasks[i].apc)
    && run in w.store.reports && w.store.reports[run] == report
  }

  lemma OneAnalysisOfRun(mayFail: bool, w: World, i: nat, k: nat)
    requires Inv(mayFail, w) && i < |w.tasks| && k < |w.tasks| && i != k
    requires w.tasks[i].Analysis? && w.tasks[k].Analysis?
    ensures w.tasks[i].run != w.tasks[k].run
  {
    assert TaskInv(mayFail, w.store, w.tasks[i]) && TaskInv(mayFail, w.store, w.tasks[k]);
    assert !Idle(mayFail, w.tasks[i], w.tasks[i].job) && Sole(mayFail, w.tasks, i, w.tasks[i].job);
  }

  lemma DoKeepsReport(mayFail: bool, w: World, e: Action, i: nat, run: RunId, report: Report)
    requires Inv(mayFail, w) && SavedBy(w, i, run, report)
    ensures SavedBy(Do(mayFail, w, e), i, run, report)
  {
    if e.Step? && e.i < |w.tasks| {
      StepsTask(mayFail, w, e.i, e.ok, e.answer);
      ReportsAfter(mayFail, w.store, w.tasks[e.i], e.ok, e.answer);
      if e.i != i && SavesNow(w.tasks[e.i], e.ok) {
        OneAnalysisOfRun(mayFail, w, i, e.i);
      }
    }
  }

  lemma SaveStepSaves(mayFail: bool, w: World, i: nat, a: Answer)
    requires i < |w.tasks| && SavesNow(w.tasks[i], true)
    ensures SavedBy(Do(mayFail, w, Step(i, true, a)), i, w.tasks[i].run, a.report)
  {
    StepsTask(mayFail, w, i, true, a);
    ReportsAfter(mayFail, w.store, w.tasks[i], true, a);
  }

  lemma {:induction false} ExecKeepsReport(mayFail: bool, before: seq<Action>, after: seq<Action>, i: nat, run: RunId,
                                           report: Report)
    requires SavedBy(Exec(mayFail, INIT, before), i, run, report)
    ensures SavedBy(Exec(mayFail, INIT, before + after), i, run, report)
  {
    if after == [] {
      assert before + after == before;
    } else {
      var init := after[..|after| - 1];
      assert (before + after)[..|before + after| - 1] == before + init;
      ExecKeepsReport(mayFail, before, init, i, run, report);
      ExecKeeps(mayFail, before + init);
      DoKeepsReport(mayFail, Exec(mayFail, INIT, before + init), after[|after| - 1], i, run, report);
    }
  }

  /** Once an analysis has saved its report, that report is the stored one for the rest of every execution. */
  lemma ReportIsTheAnswer(mayFail: bool, before: seq<Action>, i: nat, a: Answer, after: seq<Action>)
    requires var tasks := Exec(mayFail, INIT, before).tasks;
      i < |tasks| && tasks[i].Analysis? && tasks[i].apc.ASave?
    ensures var run := Exec(mayFail, INIT, before).tasks[i].run;
      var s := Exec(mayFail, INIT, before + [Step(i, true, a)] + after).store;
      run in s.reports && s.reports[run] == a.report
  {
    var e := Step(i, true, a);
    assert (before + [e])[..|before|] == before;
    SaveStepSaves(mayFail, Exec(mayFail, INIT, before), i, a);
    ExecKeepsReport(mayFail, before + [e], after, i, Exec(mayFail, INIT, before).tasks[i].run, a.report);
  }

  /** Action `n` is the successful save of an analysis of `run`. */
  ghost predicate SaveAt(mayFail: bool, actions: seq<Action>, n: nat, run: RunId) {
    && n < |actions| && actions[n].Step? && actions[n].ok
    && var tasks := Exec(mayFail, INIT, actions[..n]).tasks;
       actions[n].i < |tasks| && SavesNow(tasks[actions[n].i], true) && tasks[actions[n].i].run == run
  }

  /** And every stored report was saved in this way. */
  lemma {:induction false} StoredReportWasAnswered(mayFail: bool, actions: seq<Action>, run: RunId) returns (n: nat)
    requires run in Exec(mayFail, INIT, actions).store.reports
    ensures SaveAt(mayFail, actions, n, run)
    ensures SavedBy(Exec(mayFail, INIT, actions), actions[n].i, run, actions[n].answer.report)
  {
    var last := |actions| - 1;
    var w, e := Exec(mayFail, INIT, actions[..last]), actions[last];
    ExecKeeps(mayFail, actions[..last]);
    if e.Step? && e.i < |w.tasks| && SavesNow(w.tasks[e.i], e.ok) && w.tasks[e.i].run == run {
      n := last;
      SaveStepSaves(mayFail, w, e.i, e.answer);
    } else {
      if e.Step? && e.i < |w.tasks| {
        StepsTask(mayFail, w, e.i, e.ok, e.answer);
        ReportsAfter(mayFail, w.store, w.tasks[e.i], e.ok, e.answer);
      }
      n := StoredReportWasAnswered(mayFail, actions[..last], run);
      assert actions[..last][..n] == actions[..n];
      DoKeepsReport(mayFail, w, e, actions[n].i, run, actions[n].answer.report);
    }
  }

  /** So a run that the poller shows with a run id has the report with which its one analysis answered. */
  lemma ShownReportWasAnswered(mayFail: bool, actions: seq<Action>, job: JobId) returns (n: nat)
    requires var p := PollRun(Exec(mayFail, INIT, actions).store, job); p.Shown? && p.runId.Some?
    ensures var s := Exec(mayFail, INIT, actions).store;
      var run := PollRun(s, job).runId.value;
      && SaveAt(mayFail, actions, n, run)
      && run in s.reports && s.reports[run] == actions[n].answer.report
  {
    ShownRunHasReport(mayFail, actions, job);
    n := StoredReportWasAnswered(mayFail, actions, PollRun(Exec(mayFail, INIT, actions).store, job).runId.value);
  }

  // ------------------------------------------------------------------ the proposal

  /** A discovery that has not proposed yet. */
  predicate Before(t: Task) {
    t.Discovery? && (t.dpc.DSetup? || t.dpc.DBegin? || t.dpc.DAnnounce? || t.dpc.DPropose?)
  }

  predicate SameDiscovery(t: Task, u: Task) {
    t.Discovery? && u.Discovery? && t.run == u.run
  }

  /** There is one discovery for each run, and no list before it proposes one. */
  ghost predicate Proposers(w: World) {
    && (forall i, k :: 0 <= i < |w.tasks| && 0 <= k < |w.tasks| && SameDiscovery(w.tasks[i], w.tasks[k]) ==> i == k)
    && (forall i :: 0 <= i < |w.tasks| && Before(w.tasks[i]) ==> w.tasks[i].run !in w.store.competitors)
  }

  /** No other task writes the list of a run that discovery `k` has not got to yet. */
  lemma NobodyWritesBefore(mayFail: bool, w: World, i: nat, ok: bool, k: nat)
    requires Inv(mayFail, w) && Proposers(w) && i < |w.tasks| && k < |w.tasks| && i != k && Before(w.tasks[k])
    requires ProposesNow(w.tasks[i], ok) || ReplacesNow(w.tasks[i], ok)
    ensures w.tasks[i].run != w.tasks[k].run
  {
    assert TaskInv(mayFail, w.store, w.tasks[i]) && TaskInv(mayFail, w.store, w.tasks[k]);
    if ReplacesNow(w.tasks[i], ok) {
      assert !Idle(mayFail, w.tasks[k], w.tasks[k].job) && Sole(mayFail, w.tasks, k, w.tasks[k].job);
      assert Holds(w.tasks[i], w.tasks[i].job);
    } else {
      assert !SameDiscovery(w.tasks[i], w.tasks[k]);
    }
  }

  lemma StepKeepsProposers(mayFail: bool, w: World, i: nat, ok: bool, a: Answer)
    requires Inv(mayFail, w) && Proposers(w) && i < |w.tasks|
    ensures Proposers(Do(mayFail, w, Step(i, ok, a)))
  {
    var w' := Do(mayFail, w, Step(i, ok, a));
    StepsTask(mayFail, w, i, ok, a);
    ListsAfter(mayFail, w.store, w.tasks[i], ok, a);
    NoNewDiscovery(mayFail, w, i, ok, a);
    forall k | 0 <= k < |w'.tasks| && Before(w'.tasks[k]) ensures w'.tasks[k].run !in w'.store.competitors {
      if k != i && (ProposesNow(w.tasks[i], ok) || ReplacesNow(w.tasks[i], ok)) {
        NobodyWritesBefore(mayFail, w, i, ok, k);
      }
    }
  }

  lemma NoNewDiscovery(mayFail: bool, w: World, i: nat, ok: bool, a: Answer)
    requires i < |w.tasks|
    ensures var w' := Do(mayFail, w, Step(i, ok, a));
      forall k :: 0 <= k < |w'.tasks| && w'.tasks[k].Discovery? ==>
        k < |w.tasks| && w.tasks[k].Discovery? && w.tasks[k].run == w'.tasks[k].run && w.tasks[k].job == w'.tasks[k].job
        && (Before(w'.tasks[k]) ==> Before(w.tasks[k]) && !(k == i && ProposesNow(w.tasks[i], ok)))
  {
  }

  lemma StartKeepsProposers(mayFail: bool, w: World, e: Action)
    requires Inv(mayFail, w) && Proposers(w) && e.StartRun?
    ensures Proposers(Do(mayFail, w, e))
  {
    forall k | 0 <= k < |w.tasks| && w.tasks[k].Discovery? ensures w.tasks[k].job in w.store.runs {
      assert TaskInv(mayFail, w.store, w.tasks[k]);
    }
  }

  lemma DoKeepsProposers(mayFail: bool, w: World, e: Action)
    requires Inv(mayFail, w) && Proposers(w)
    ensures Proposers(Do(mayFail, w, e))
  {
    match e
    case StartRun(_, _, _) => StartKeepsProposers(mayFail, w, e);
    case CallConfirm(_, _) =>
    case CallRefresh(_) =>
    case Step(i, ok, a) =>
      if i < |w.tasks| {
        StepKeepsProposers(mayFail, w, i, ok, a);
      }
  }

  lemma {:induction false} ExecKeepsProposers(mayFail: bool, actions: seq<Action>)
    ensures Proposers(Exec(mayFail, INIT, actions))
  {
    if actions != [] {
      ExecKeepsProposers(mayFail, actions[..|actions| - 1]);
      ExecKeeps(mayFail, actions[..|actions| - 1]);
      DoKeepsProposers(mayFail, Exec(mayFail, INIT, actions[..|actions| - 1]), actions[|actions| - 1]);
    }
  }

  /** Discovery `i` has proposed; its proposal is the list of its run until a winner or a refresh has put its own there. */
  ghost predicate Proposed(w: World, i: nat, job: JobId, run: RunId, proposal: seq<Competitor>) {
    && i < |w.tasks| && w.tasks[i].Discovery? && w.tasks[i].job == job && w.tasks[i].run == run && !Before(w.tasks[i])
    && (w.store.GetCompetitors(run) == proposal || exists list :: Carried(w, job, run, list))
  }

  lemma ReplaceCarries(mayFail: bool, w: World, i: nat, a: Answer)
    requires i < |w.tasks| && ReplacesNow(w.tasks[i], true)
    ensures Carried(Do(mayFail, w, Step(i, true, a)), w.tasks[i].job, w.tasks[i].run, w.tasks[i].list)
  {
    StepsTask(mayFail, w, i, true, a);
    var t := Do(mayFail, w, Step(i, true, a)).tasks[i];
    assert Carries(t, w.tasks[i].job, w.tasks[i].run, w.tasks[i].list);
  }

  /** A step that writes the list of a run whose discovery has proposed is the one of a winner or of a refresh. */
  lemma StepKeepsTheList(mayFail: bool, w: World, i: nat, ok: bool, a: Answer, k: nat)
    requires Inv(mayFail, w) && Proposers(w) && i < |w.tasks| && k < |w.tasks|
    requires w.tasks[k].Discovery? && !Before(w.tasks[k])
    ensures var w' := Do(mayFail, w, Step(i, ok, a));
      || w'.store.GetCompetitors(w.tasks[k].run) == w.store.GetCompetitors(w.tasks[k].run)
      || exists list :: Carried(w', w.tasks[k].job, w.tasks[k].run, list)
  {
    StepsTask(mayFail, w, i, ok, a);
    ListsAfter(mayFail, w.store, w.tasks[i], ok, a);
    if ReplacesNow(w.tasks[i], ok) && w.tasks[i].run == w.tasks[k].run {
      assert TaskInv(mayFail, w.store, w.tasks[i]) && TaskInv(mayFail, w.store, w.tasks[k]);
      SameJob(mayFail, w, i, k);
      ReplaceCarries(mayFail, w, i, a);
    } else {
      assert ProposesNow(w.tasks[i], ok) ==> !SameDiscovery(w.tasks[i], w.tasks[k]);
    }
  }

  lemma StaysProposer(mayFail: bool, w: World, e: Action, i: nat)
    requires i < |w.tasks| && w.tasks[i].Discovery? && !Before(w.tasks[i])
    ensures var w' := Do(mayFail, w, e);
      && i < |w'.tasks| && w'.tasks[i].Discovery? && !Before(w'.tasks[i])
      && w'.tasks[i].job == w.tasks[i].job && w'.tasks[i].run == w.tasks[i].run
  {
    if e.Step? && e.i < |w.tasks| {
      StepsTask(mayFail, w, e.i, e.ok, e.answer);
    }
  }

  lemma DoKeepsProposal(mayFail: bool, w: World, e: Action, i: nat, job: JobId, run: RunId, proposal: seq<Competitor>)
    requires Inv(mayFail, w) && Proposers(w) && Proposed(w, i, job, run, proposal)
    ensures Proposed(Do(mayFail, w, e), i, job, run, proposal)
  {
    StaysProposer(mayFail, w, e, i);
    if list :| Carried(w, job, run, list) {
      DoCarries(mayFail, w, e, job, run, list);
    } else if e.Step? && e.i < |w.tasks| {
      StepKeepsTheList(mayFail, w, e.i, e.ok, e.answer, i);
    }
  }

  lemma ProposeStepProposes(mayFail: bool, w: World, i: nat, a: Answer)
    requires Proposers(w) && i < |w.tasks| && ProposesNow(w.tasks[i], true)
    ensures Proposed(Do(mayFail, w, Step(i, true, a)), i, w.tasks[i].job, w.tasks[i].run, a.proposal)
  {
    StepsTask(mayFail, w, i, true, a);
    ListsAfter(mayFail, w.store, w.tasks[i], true, a);
  }

  lemma {:induction false} ExecKeepsProposal(mayFail: bool, before: seq<Action>, after: seq<Action>, i: nat, job: JobId,
                                             run: RunId, proposal: seq<Competitor>)
    requires Proposed(Exec(mayFail, INIT, before), i, job, run, proposal)
    ensures Proposed(Exec(mayFail, INIT, before + after), i, job, run, proposal)
  {
    if after == [] {
      assert before + after == before;
    } else {
      var init := after[..|after| - 1];
      assert (before + after)[..|before + after| - 1] == before + init;
      ExecKeepsProposal(mayFail, before, init, i, job, run, proposal);
      ExecKeeps(mayFail, before + init);
      ExecKeepsProposers(mayFail, before + init);
      DoKeepsProposal(mayFail, Exec(mayFail, INIT, before + init), after[|after| - 1], i, job, run, proposal);
    }
  }

  /** What discovery has proposed is the stored list, exactly, for the rest of every execution, until a winner or a refresh
      carries a list of its own (which is then the stored one: `ListIsKept`). */
  lemma ProposalIsTheList(mayFail: bool, before: seq<Action>, i: nat, a: Answer, after: seq<Action>)
    requires var tasks := Exec(mayFail, INIT, before).tasks;
      i < |tasks| && tasks[i].Discovery? && tasks[i].dpc.DPropose?
    ensures var t := Exec(mayFail, INIT, before).tasks[i];
      var w := Exec(mayFail, INIT, before + [Step(i, true, a)] + after);
      w.store.GetCompetitors(t.run) == a.proposal || exists list :: Carried(w, t.job, t.run, list)
  {
    var e, t := Step(i, true, a), Exec(mayFail, INIT, before).tasks[i];
    assert (before + [e])[..|before|] == before;
    ExecKeepsProposers(mayFail, before);
    ProposeStepProposes(mayFail, Exec(mayFail, INIT, before), i, a);
    ExecKeepsProposal(mayFail, before + [e], after, i, t.job, t.run, a.proposal);
  }

  // ------------------------------------------------------------------ what the poll shows

  /** While the run awaits a confirmation, the poll shows exactly the proposal, if that fits the cap of four. */
  lemma AwaitingShowsTheProposal(mayFail: bool, before: seq<Action>, i: nat, a: Answer, after: seq<Action>)
    requires var tasks := Exec(mayFail, INIT, before).tasks;
      i < |tasks| && tasks[i].Discovery? && tasks[i].dpc.DPropose?
    ensures var job := Exec(mayFail, INIT, before).tasks[i].job;
      var s := Exec(mayFail, INIT, before + [Step(i, true, a)] + after).store;
      job in s.runs && s.runs[job].status == AwaitingConfirmation ==>
        PollRun(s, job) == if |a.proposal| > 4 then Unreadable else Shown(AwaitingConfirmation, Some(a.proposal), None)
  {
    var actions := before + [Step(i, true, a)] + after;
    var t, w := Exec(mayFail, INIT, before).tasks[i], Exec(mayFail, INIT, actions);
    var e := Step(i, true, a);
    assert (before + [e])[..|before|] == before;
    ExecKeepsProposers(mayFail, before);
    ProposeStepProposes(mayFail, Exec(mayFail, INIT, before), i, a);
    ExecKeepsProposal(mayFail, before + [e], after, i, t.job, t.run, a.proposal);
    ExecKeeps(mayFail, actions);
    assert TaskInv(mayFail, w.store, w.tasks[i]);
    if t.job in w.store.runs && w.store.runs[t.job].status == AwaitingConfirmation {
      NobodyCarriesYet(mayFail, w, t.job, t.run);
    }
  }

  lemma NobodyCarriesYet(mayFail: bool, w: World, job: JobId, run: RunId)
    requires Inv(mayFail, w) && job in w.store.runs && w.store.runs[job].status == AwaitingConfirmation
    ensures forall list :: !Carried(w, job, run, list)
  {
    forall k, list | 0 <= k < |w.tasks| ensures !Carries(w.tasks[k], job, run, list) {
      assert Idle(mayFail, w.tasks[k], job);
    }
  }

  /** What the poll tells of a row: its status, its list once discovery is done or there is one, and its run id exactly when
      the run is completed. */
  lemma PollTells(s: Store, job: JobId)
    ensures PollRun(s, job).NotFound? <==> job !in s.runs
    ensures PollRun(s, job).Unreadable? <==> job in s.runs && |s.GetCompetitors(s.runs[job].id)| > 4
    ensures PollRun(s, job).Shown? ==>
      && PollRun(s, job).status == s.runs[job].status
      && (PollRun(s, job).runId.Some? <==> s.runs[job].status == Completed)
      && (PollRun(s, job).runId.Some? ==> PollRun(s, job).runId.value == s.runs[job].id)
      && (PollRun(s, job).result.Some? ==> PollRun(s, job).result.value == s.GetCompetitors(s.runs[job].id))
      && (PollRun(s, job).result.None? <==>
            s.GetCompetitors(s.runs[job].id) == [] && s.runs[job].status in {Queued, RunningDiscovery, Failed})
  {
  }
}
