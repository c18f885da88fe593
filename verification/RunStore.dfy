/** The in-memory run store (app/db/repository.py, _MemStore), as a value and as the class that updates it in place. */
module RunStore {
  import opened Wrappers

  type JobId = string
  type RunId = string

  datatype Status =
    Queued | RunningDiscovery | AwaitingConfirmation | ConfirmedRun | RunningAnalysis | Completed | Failed

  datatype Competitor = Competitor(name: string, category: string, rationale: string)

  datatype Report = Report(threat: string, body: string)

  datatype Row = Row(id: RunId, company: string, status: Status, stage: string, error: Option<string>)

  datatype Store =
    Store(runs: map<JobId, Row>, competitors: map<RunId, seq<Competitor>>, reports: map<RunId, Report>)
  {
    /** Neither a row nor any run-scoped record uses the ids yet: uuid4 freshness. */
    ghost predicate Fresh(job: JobId, run: RunId) {
      job !in runs && run !in competitors && run !in reports && forall j :: j in runs ==> runs[j].id != run
    }

    function CreateRun(job: JobId, run: RunId, company: string): Store {
      this.(runs := runs[job := Row(run, company, Queued, "queued", None)])
    }

    function SetStatus(job: JobId, status: Status, stage: string): Store {
      if job in runs then this.(runs := runs[job := runs[job].(status := status, stage := stage)]) else this
    }

    function FinishRun(job: JobId): Store {
      SetStatus(job, Completed, "done")
    }

    function FailRun(job: JobId, error: string): Store {
      if job in runs then this.(runs := runs[job := runs[job].(status := Failed, error := Some(error))]) else this
    }

    /** The compare-and-swap behind /confirm: the new store and the id of the run it flipped. */
    function ConfirmRun(job: JobId): (Store, Option<RunId>) {
      if job in runs && runs[job].status == AwaitingConfirmation
      then (SetStatus(job, ConfirmedRun, "confirmed"), Some(runs[job].id))
      else (this, None)
    }

    function GetCompetitors(run: RunId): seq<Competitor> {
      if run in competitors then competitors[run] else []
    }

    function SaveCompetitors(run: RunId, rows: seq<Competitor>): Store {
      if rows == [] then this else this.(competitors := competitors[run := GetCompetitors(run) + rows])
    }

    function ReplaceCompetitors(run: RunId, rows: seq<Competitor>): Store {
      this.(competitors := competitors[run := rows])
    }

    function SaveReport(run: RunId, report: Report): Store {
      this.(reports := reports[run := report])
    }
  }

  class MemStore {
    var runs: map<JobId, Row>
    var competitors: map<RunId, seq<Competitor>>
    var reports: map<RunId, Report>

    function Contents(): Store
      reads this
    {
      Store(runs, competitors, reports)
    }

    constructor ()
      ensures Contents() == Store(map[], map[], map[])
    {
      runs, competitors, reports := map[], map[], map[];
    }

    method CreateRun(job: JobId, run: RunId, company: string)
      modifies this
      ensures Contents() == old(Contents()).CreateRun(job, run, company)
    {
      runs := runs[job := Row(run, company, Queued, "queued", None)];
    }

    method UpdateRunStatus(job: JobId, status: Status, stage: string)
      modifies this
      ensures Contents() == old(Contents()).SetStatus(job, status, stage)
    {
      if job in runs {
        runs := runs[job := runs[job].(status := status, stage := stage)];
      }
    }

    method FinishRun(job: JobId)
      modifies this
      ensures Contents() == old(Contents()).FinishRun(job)
    {
      if job in runs {
        runs := runs[job := runs[job].(status := Completed, stage := "done")];
      }
    }

    method FailRun(job: JobId, error: string)
      modifies this
      ensures Contents() == old(Contents()).FailRun(job, error)
    {
      if job in runs {
        runs := runs[job := runs[job].(status := Failed, error := Some(error))];
      }
    }

    /** At most one of any number of callers gets an id, and only while the run awaits confirmation. */
    method ConfirmRun(job: JobId) returns (id: Option<RunId>)
      modifies this
      ensures (Contents(), id) == old(Contents()).ConfirmRun(job)
      ensures id.Some? <==> old(job in runs && runs[job].status == AwaitingConfirmation)
      ensures job in runs ==> runs[job].status != AwaitingConfirmation
    {
      if job in runs && runs[job].status == AwaitingConfirmation {
        runs := runs[job := runs[job].(status := ConfirmedRun, stage := "confirmed")];
        id := Some(runs[job].id);
      } else {
        id := None;
      }
    }

    method SaveCompetitors(run: RunId, rows: seq<Competitor>)
      modifies this
      ensures Contents() == old(Contents()).SaveCompetitors(run, rows)
    {
      if rows != [] {
        var listed := if run in competitors then competitors[run] else [];
        competitors := competitors[run := listed + rows];
      }
    }

    method ReplaceCompetitors(run: RunId, rows: seq<Competitor>)
      modifies this
      ensures Contents() == old(Contents()).ReplaceCompetitors(run, rows)
    {
      competitors := competitors[run := rows];
    }

    method SaveReport(run: RunId, report: Report)
      modifies this
      ensures Contents() == old(Contents()).SaveReport(run, report)
    {
      reports := reports[run := report];
    }

    method GetRun(job: JobId) returns (row: Option<Row>)
      ensures row.Some? <==> job in Contents().runs
      ensures row.Some? ==> row.value == Contents().runs[job]
    {
      row := if job in runs then Some(runs[job]) else None;
    }
  }
}
