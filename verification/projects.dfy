/**
 * Projects: one model (country and segment) going through workflow rounds.
 * `ProjectsLocal` (`useProjectsLocal`) keeps whole project documents,
 * rounds included, in the local backend's `projects` table and PATCHes them;
 * `ProjectsHook` (`useProjects`) keeps one flat database row per project
 * and rebuilds a single round from it when reading.
 */
module Projects {
  import opened Wrappers
  import opened Text
  import opened Storage
  import opened Tracker

  // ---------------------------------------------------------------------------
  // The local hook

  /** A project as the backend stores it; the last three fields may be absent. */
  datatype DBProject = DBProject(
    id: string, country: string, segment: Segment, testType: TestType, currentRound: int,
    status: ProjectStatus, createdAt: string, updatedAt: string,
    awaitingConfirmation: Option<bool>, confirmedAt: Option<string>, rounds: Option<seq<WorkflowRound>>)

  /**
   * `dbToProject`: stored rounds pass through (an empty list too); without
   * them the project gets one round, numbered `current_round`, at step 1,
   * of the stored test type, started when the project was created.
   */
  function DbToProject(db: DBProject, roundId: string): (p: Project)
    ensures p.id == db.id && p.country == db.country && p.segment == db.segment && p.status == db.status
    ensures p.currentRound == db.currentRound && p.createdAt == db.createdAt && p.updatedAt == db.updatedAt
    ensures p.awaitingConfirmation == db.awaitingConfirmation && p.confirmedAt == db.confirmedAt
    ensures db.rounds.Some? ==> p.rounds == db.rounds.value
    ensures db.rounds.None? ==>
              |p.rounds| == 1 && p.rounds[0].roundNumber == db.currentRound && p.rounds[0].currentStep == 1 &&
              p.rounds[0].testType == db.testType && p.rounds[0].startedAt == db.createdAt &&
              p.rounds[0].completedAt.None? && p.rounds[0].id == roundId
  {
    Project(db.id, db.country, db.segment, db.status, db.currentRound,
            if db.rounds.Some? then db.rounds.value else [FreshRound(roundId, db.currentRound, db.testType, db.createdAt)],
            db.createdAt, db.updatedAt, db.confirmedAt, db.awaitingConfirmation)
  }

  /** `projectToDb`: the stored test type is the first round's, or the full suite when there is none. */
  function ProjectToDb(p: Project): (db: DBProject)
    ensures db.testType == if |p.rounds| > 0 then p.rounds[0].testType else TestSuite
    ensures db.rounds == Some(p.rounds)
  {
    DBProject(p.id, p.country, p.segment, if |p.rounds| > 0 then p.rounds[0].testType else TestSuite,
              p.currentRound, p.status, p.createdAt, p.updatedAt, p.awaitingConfirmation, p.confirmedAt, Some(p.rounds))
  }

  /** Storing then reading a project gives it back, whatever id a default round would get. */
  lemma ProjectRoundTrip(p: Project, roundId: string)
    ensures DbToProject(ProjectToDb(p), roundId) == p
  {
  }

  /** Reading then storing gives the document back when it has rounds and its test type is the first round's. */
  lemma DbRoundTrip(db: DBProject, roundId: string)
    requires db.rounds.Some?
    requires db.testType == if |db.rounds.value| > 0 then db.rounds.value[0].testType else TestSuite
    ensures ProjectToDb(DbToProject(db, roundId)) == db
  {
  }

  /** A document without rounds is read as one round; storing it keeps its test type. */
  lemma DefaultRoundKeepsTestType(db: DBProject, roundId: string)
    requires db.rounds.None?
    ensures ProjectToDb(DbToProject(db, roundId)) == db.(rounds := Some([FreshRound(roundId, db.currentRound, db.testType, db.createdAt)]))
  {
  }

  /** The document `addProject` POSTs: in progress, round 1, one step-1 round of the chosen test type. */
  function NewDBProject(id: string, country: string, segment: Segment, testType: TestType, roundId: string, now: string): (db: DBProject)
    ensures db.status == InProgress && db.currentRound == 1 && db.testType == testType
    ensures db.rounds == Some([FreshRound(roundId, 1, testType, now)])
    ensures db.awaitingConfirmation.None? && db.confirmedAt.None?
  {
    DBProject(id, country, segment, testType, 1, InProgress, now, now, None, None, Some([FreshRound(roundId, 1, testType, now)]))
  }

  /**
   * The document `addProjectFromModel` POSTs. `status` None is the empty
   * status; `currentRound` 0 counts as round 1; without rounds the project
   * gets a full-suite round 1; it awaits confirmation exactly when waiting.
   */
  function ModelDBProject(id: string, country: string, segment: Segment, status: Option<ProjectStatus>, currentRound: int,
                          rounds: seq<WorkflowRound>, roundId: string, now: string): (db: DBProject)
    ensures db.rounds.Some? && |db.rounds.value| > 0
    ensures |rounds| > 0 ==> db.rounds == Some(rounds)
    ensures |rounds| == 0 ==> db.rounds == Some([FreshRound(roundId, 1, TestSuite, now)])
    ensures db.testType == db.rounds.value[0].testType
    ensures db.currentRound == if currentRound == 0 then 1 else currentRound
    ensures db.status == status.GetOr(InProgress)
    ensures db.awaitingConfirmation == Some(status == Some(Waiting))
  {
    var projectRounds := if |rounds| > 0 then rounds else [FreshRound(roundId, 1, TestSuite, now)];
    DBProject(id, country, segment, projectRounds[0].testType, if currentRound == 0 then 1 else currentRound,
              status.GetOr(InProgress), now, now, Some(status == Some(Waiting)), None, Some(projectRounds))
  }

  /** The fields a `saveProject` PATCH carries; absent ones are kept. */
  datatype ProjectPatch = ProjectPatch(
    id: string, currentRound: Option<int>, status: Option<ProjectStatus>, rounds: Option<seq<WorkflowRound>>,
    awaitingConfirmation: Option<bool>, confirmedAt: Option<string>, updatedAt: Option<string>)

  /** The stored document after the backend merges a patch into it. */
  function ApplyPatch(db: DBProject, p: ProjectPatch): (r: DBProject)
    ensures r.id == db.id && r.country == db.country && r.segment == db.segment && r.testType == db.testType
    ensures r.createdAt == db.createdAt
    ensures r.currentRound == p.currentRound.GetOr(db.currentRound) && r.status == p.status.GetOr(db.status)
    ensures r.rounds == (if p.rounds.Some? then p.rounds else db.rounds)
    ensures r.awaitingConfirmation == (if p.awaitingConfirmation.Some? then p.awaitingConfirmation else db.awaitingConfirmation)
    ensures r.confirmedAt == (if p.confirmedAt.Some? then p.confirmedAt else db.confirmedAt)
    ensures r.updatedAt == p.updatedAt.GetOr(db.updatedAt)
  {
    db.(currentRound := p.currentRound.GetOr(db.currentRound), status := p.status.GetOr(db.status),
        rounds := if p.rounds.Some? then p.rounds else db.rounds,
        awaitingConfirmation := if p.awaitingConfirmation.Some? then p.awaitingConfirmation else db.awaitingConfirmation,
        confirmedAt := if p.confirmedAt.Some? then p.confirmedAt else db.confirmedAt,
        updatedAt := p.updatedAt.GetOr(db.updatedAt))
  }

  /** The position of the first stored document with the id. */
  function FindStored(table: seq<DBProject>, id: string): (r: Option<nat>)
    ensures r.Some? ==> r.value < |table| && table[r.value].id == id
    ensures r.Some? ==> forall j :: 0 <= j < r.value ==> table[j].id != id
    ensures r.None? <==> forall j :: 0 <= j < |table| ==> table[j].id != id
    decreases |table|
  {
    if |table| == 0 then None
    else if table[0].id == id then Some(0)
    else match FindStored(table[1..], id)
      case None => None
      case Some(k) => Some(k + 1)
  }

  /** The position of the first project on the page with the id. */
  function FindProject(projects: seq<Project>, id: string): (r: Option<nat>)
    ensures r.Some? ==> r.value < |projects| && projects[r.value].id == id
    ensures r.None? <==> forall j :: 0 <= j < |projects| ==> projects[j].id != id
    decreases |projects|
  {
    if |projects| == 0 then None
    else if projects[0].id == id then Some(0)
    else match FindProject(projects[1..], id)
      case None => None
      case Some(k) => Some(k + 1)
  }

  /** The table after a PATCH; a missing id is not found and nothing changes. */
  function Patched(table: seq<DBProject>, p: ProjectPatch): (r: seq<DBProject>)
    ensures |r| == |table|
    ensures FindStored(table, p.id).None? ==> r == table
    ensures FindStored(table, p.id).Some? ==>
              var i := FindStored(table, p.id).value;
              r[i] == ApplyPatch(table[i], p) && forall j :: 0 <= j < |table| && j != i ==> r[j] == table[j]
  {
    match FindStored(table, p.id)
    case None => table
    case Some(i) => table[i := ApplyPatch(table[i], p)]
  }

  /** The page after a refetch: every document read, each default round with its own fresh id. */
  function ReadAll(table: seq<DBProject>, roundIds: nat -> string): (r: seq<Project>)
    ensures |r| == |table| && forall i :: 0 <= i < |table| ==> r[i] == DbToProject(table[i], roundIds(i))
  {
    seq(|table|, i requires 0 <= i < |table| => DbToProject(table[i], roundIds(i)))
  }

  /**
   * The patch of `updateProjectStep`, or None (nothing saved) when the
   * current round is missing. The round looked up is `currentRound` itself.
   */
  function StepPatch(project: Project, step: WorkflowStep, now: string): (r: Option<ProjectPatch>)
    ensures r.None? <==> forall j :: 0 <= j < |project.rounds| ==> project.rounds[j].roundNumber != project.currentRound
    ensures r.Some? ==> r.value.id == project.id && r.value.currentRound.None? && r.value.confirmedAt.None?
    ensures r.Some? ==> r.value.rounds == SteppedRounds(project.rounds, project.currentRound, step, now)
    ensures r.Some? && step == 3 ==> r.value.status == Some(Waiting) && r.value.awaitingConfirmation == Some(true)
    ensures r.Some? && step != 3 ==>
              r.value.status == Some(project.status) && r.value.awaitingConfirmation == project.awaitingConfirmation
  {
    match SteppedRounds(project.rounds, project.currentRound, step, now)
    case None => None
    case Some(rounds) =>
      Some(ProjectPatch(project.id, None, if step == 3 then Some(Waiting) else Some(project.status), Some(rounds),
                        if step == 3 then Some(true) else project.awaitingConfirmation, None, Some(now)))
  }

  /** The patch of `startNewRound`: the next round number, a step-1 round appended, in progress and not awaiting. */
  function NewRoundPatch(project: Project, testType: TestType, roundId: string, now: string): (r: ProjectPatch)
    ensures r.currentRound == Some(project.currentRound + 1) && r.status == Some(InProgress)
    ensures r.rounds == Some(project.rounds + [FreshRound(roundId, project.currentRound + 1, testType, now)])
    ensures r.awaitingConfirmation == Some(false) && r.confirmedAt.None?
  {
    ProjectPatch(project.id, Some(project.currentRound + 1), Some(InProgress),
                 Some(project.rounds + [FreshRound(roundId, project.currentRound + 1, testType, now)]),
                 Some(false), None, Some(now))
  }

  /** The rounds after `addRoundNotes`: the notes go on every round with the number. */
  function NotedRounds(rounds: seq<WorkflowRound>, roundNumber: int, notes: string): (r: seq<WorkflowRound>)
    ensures |r| == |rounds|
    ensures forall i :: 0 <= i < |rounds| && rounds[i].roundNumber != roundNumber ==> r[i] == rounds[i]
    ensures forall i :: 0 <= i < |rounds| && rounds[i].roundNumber == roundNumber ==>
              r[i] == rounds[i].(notes := Some(notes))
  {
    seq(|rounds|, i requires 0 <= i < |rounds| =>
      if rounds[i].roundNumber == roundNumber then rounds[i].(notes := Some(notes)) else rounds[i])
  }

  /**
   * A new round is the one the next `updateProjectStep` moves, provided no
   * earlier round already carries its number: afterwards the earlier
   * rounds are unchanged and the new round is at the step.
   */
  lemma NewRoundThenStep(project: Project, testType: TestType, roundId: string, now: string, step: WorkflowStep, later: string)
    requires forall j :: 0 <= j < |project.rounds| ==> project.rounds[j].roundNumber != project.currentRound + 1
    ensures var p := NewRoundPatch(project, testType, roundId, now);
            var started := project.(currentRound := p.currentRound.value, rounds := p.rounds.value);
            var sp := StepPatch(started, step, later);
            sp.Some? && sp.value.rounds.Some? &&
            |sp.value.rounds.value| == |project.rounds| + 1 &&
            sp.value.rounds.value[..|project.rounds|] == project.rounds &&
            sp.value.rounds.value[|project.rounds|].currentStep == step &&
            sp.value.rounds.value[|project.rounds|].roundNumber == project.currentRound + 1
  {
    var n := project.currentRound + 1;
    var rounds := project.rounds + [FreshRound(roundId, n, testType, now)];
    assert rounds[|project.rounds|].roundNumber == n;
    FindRoundFirst(rounds, n, |project.rounds|);
    SteppedRoundsEffect(rounds, n, step, later);
    var r := SteppedRounds(rounds, n, step, later).value;
    assert r[..|project.rounds|] == project.rounds by {
      forall j | 0 <= j < |project.rounds|
        ensures r[j] == project.rounds[j]
      {
        assert r[j] == rounds[j];
      }
    }
  }

  /**
   * The local hook, used when the backend is configured: the page's
   * projects and the backend's `projects` table. A write that succeeds is
   * followed by a refetch, which reads every document anew (`roundIds` are
   * the ids a refetch gives default rounds).
   */
  class ProjectsLocal {
    var projects: seq<Project>
    var remote: seq<DBProject>

    constructor (remote: seq<DBProject>)
      ensures projects == [] && this.remote == remote
    {
      projects := [];
      this.remote := remote;
    }

    /** `fetchProjects`: on failure the page keeps what it had. */
    method Fetch(reachable: bool, roundIds: nat -> string)
      modifies this
      ensures remote == old(remote)
      ensures projects == if reachable then ReadAll(remote, roundIds) else old(projects)
    {
      if reachable {
        projects := ReadAll(remote, roundIds);
      }
    }

    /** `saveProject`: PATCH; only a successful PATCH is followed by a refetch. */
    method Save(p: ProjectPatch, reachable: bool, roundIds: nat -> string)
      modifies this
      ensures reachable && FindStored(old(remote), p.id).Some? ==>
                remote == Patched(old(remote), p) && projects == ReadAll(remote, roundIds)
      ensures !(reachable && FindStored(old(remote), p.id).Some?) ==> remote == old(remote) && projects == old(projects)
    {
      if reachable && FindStored(remote, p.id).Some? {
        remote := Patched(remote, p);
        projects := ReadAll(remote, roundIds);
      }
    }

    /** `addProject`: POST the new document, refetch, and answer the project read from it (None when the POST fails). */
    method AddProject(country: string, segment: Segment, testType: TestType, id: string, roundId: string, now: string,
                      reachable: bool, roundIds: nat -> string) returns (created: Option<Project>)
      modifies this
      ensures reachable ==> remote == old(remote) + [NewDBProject(id, country, segment, testType, roundId, now)] &&
                            projects == ReadAll(remote, roundIds) &&
                            created.Some? && created.value.rounds == [FreshRound(roundId, 1, testType, now)] &&
                            created.value.status == InProgress && created.value.currentRound == 1 &&
                            created.value.id == id
      ensures !reachable ==> created.None? && remote == old(remote) && projects == old(projects)
    {
      if !reachable {
        return None;
      }
      var db := NewDBProject(id, country, segment, testType, roundId, now);
      remote := remote + [db];
      projects := ReadAll(remote, roundIds);
      created := Some(DbToProject(db, roundId));
    }

    /** `updateProjectStep`: no-op when the project or its current round is missing from the page. */
    method UpdateProjectStep(projectId: string, step: WorkflowStep, now: string, reachable: bool, roundIds: nat -> string)
      modifies this
      ensures FindProject(old(projects), projectId).None? ==> remote == old(remote) && projects == old(projects)
      ensures FindProject(old(projects), projectId).Some? ==>
                var sp := StepPatch(old(projects)[FindProject(old(projects), projectId).value], step, now);
                (sp.None? ==> remote == old(remote) && projects == old(projects)) &&
                (sp.Some? && reachable && FindStored(old(remote), projectId).Some? ==>
                   remote == Patched(old(remote), sp.value) && projects == ReadAll(remote, roundIds)) &&
                (!(reachable && FindStored(old(remote), projectId).Some?) ==> remote == old(remote) && projects == old(projects))
    {
      var found := FindProject(projects, projectId);
      if found.None? {
        return;
      }
      var sp := StepPatch(projects[found.value], step, now);
      if sp.None? {
        return;
      }
      Save(sp.value, reachable, roundIds);
    }

    /** `startNewRound`: no-op when the project is missing from the page. */
    method StartNewRound(projectId: string, testType: TestType, roundId: string, now: string, reachable: bool, roundIds: nat -> string)
      modifies this
      ensures FindProject(old(projects), projectId).None? ==> remote == old(remote) && projects == old(projects)
      ensures FindProject(old(projects), projectId).Some? && reachable && FindStored(old(remote), projectId).Some? ==>
                var project := old(projects)[FindProject(old(projects), projectId).value];
                remote == Patched(old(remote), NewRoundPatch(project, testType, roundId, now)) &&
                projects == ReadAll(remote, roundIds)
      ensures !(reachable && FindStored(old(remote), projectId).Some?) ==> remote == old(remote) && projects == old(projects)
    {
      var found := FindProject(projects, projectId);
      if found.None? {
        return;
      }
      Save(NewRoundPatch(projects[found.value], testType, roundId, now), reachable, roundIds);
    }

    /** `confirmProject`: completed, no longer awaiting, confirmed now. */
    method ConfirmProject(projectId: string, now: string, reachable: bool, roundIds: nat -> string)
      modifies this
      ensures reachable && FindStored(old(remote), projectId).Some? ==>
                var i := FindStored(old(remote), projectId).value;
                |remote| == |old(remote)| &&
                remote[i] == old(remote)[i].(status := Completed, awaitingConfirmation := Some(false),
                                             confirmedAt := Some(now), updatedAt := now) &&
                (forall j :: 0 <= j < |remote| && j != i ==> remote[j] == old(remote)[j]) &&
                projects == ReadAll(remote, roundIds)
      ensures !(reachable && FindStored(old(remote), projectId).Some?) ==> remote == old(remote) && projects == old(projects)
    {
      Save(ProjectPatch(projectId, None, Some(Completed), None, Some(false), Some(now), Some(now)), reachable, roundIds);
    }

    /** `updateProjectStatus`. */
    method UpdateProjectStatus(projectId: string, status: ProjectStatus, now: string, reachable: bool, roundIds: nat -> string)
      modifies this
      ensures reachable && FindStored(old(remote), projectId).Some? ==>
                remote == Patched(old(remote), ProjectPatch(projectId, None, Some(status), None, None, None, Some(now))) &&
                projects == ReadAll(remote, roundIds)
      ensures !(reachable && FindStored(old(remote), projectId).Some?) ==> remote == old(remote) && projects == old(projects)
    {
      Save(ProjectPatch(projectId, None, Some(status), None, None, None, Some(now)), reachable, roundIds);
    }

    /** `deleteProject`: DELETE the first document with the id, then refetch. */
    method DeleteProject(projectId: string, reachable: bool, roundIds: nat -> string)
      modifies this
      ensures reachable && FindStored(old(remote), projectId).Some? ==>
                var i := FindStored(old(remote), projectId).value;
                remote == old(remote)[..i] + old(remote)[i + 1..] && projects == ReadAll(remote, roundIds)
      ensures !(reachable && FindStored(old(remote), projectId).Some?) ==> remote == old(remote) && projects == old(projects)
    {
      if !reachable {
        return;
      }
      var found := FindStored(remote, projectId);
      if found.None? {
        return;
      }
      remote := remote[..found.value] + remote[found.value + 1..];
      projects := ReadAll(remote, roundIds);
    }

    /** `addRoundNotes`: no-op when the project is missing from the page. */
    method AddRoundNotes(projectId: string, roundNumber: int, notes: string, now: string, reachable: bool, roundIds: nat -> string)
      modifies this
      ensures FindProject(old(projects), projectId).None? ==> remote == old(remote) && projects == old(projects)
      ensures FindProject(old(projects), projectId).Some? && reachable && FindStored(old(remote), projectId).Some? ==>
                var project := old(projects)[FindProject(old(projects), projectId).value];
                remote == Patched(old(remote), ProjectPatch(projectId, None, None, Some(NotedRounds(project.rounds, roundNumber, notes)),
                                                            None, None, Some(now))) &&
                projects == ReadAll(remote, roundIds)
      ensures !(reachable && FindStored(old(remote), projectId).Some?) ==> remote == old(remote) && projects == old(projects)
    {
      var found := FindProject(projects, projectId);
      if found.None? {
        return;
      }
      var project := projects[found.value];
      Save(ProjectPatch(projectId, None, None, Some(NotedRounds(project.rounds, roundNumber, notes)), None, None, Some(now)),
           reachable, roundIds);
    }

    /** `addProjectFromModel`: POST the document built from a release model, then refetch. */
    method AddProjectFromModel(country: string, segment: Segment, status: Option<ProjectStatus>, currentRound: int,
                               rounds: seq<WorkflowRound>, id: string, roundId: string, now: string,
                               reachable: bool, roundIds: nat -> string)
      modifies this
      ensures reachable ==> remote == old(remote) + [ModelDBProject(id, country, segment, status, currentRound, rounds, roundId, now)] &&
                            projects == ReadAll(remote, roundIds)
      ensures !reachable ==> remote == old(remote) && projects == old(projects)
    {
      if reachable {
        remote := remote + [ModelDBProject(id, country, segment, status, currentRound, rounds, roundId, now)];
        projects := ReadAll(remote, roundIds);
      }
    }
  }

  // ---------------------------------------------------------------------------
  // The database hook

  /** A `projects` row: no rounds are stored. */
  datatype ProjectRow = ProjectRow(
    id: string, country: string, segment: Segment, testType: TestType, status: ProjectStatus,
    currentRound: int, createdAt: string, updatedAt: string)

  /** The step a row's single round is shown at. */
  function ShownStep(status: ProjectStatus): WorkflowStep {
    if status == Completed || status == Waiting then 5 else 1
  }

  /**
   * `rowToProject`: exactly one round, `round-<id>`, numbered
   * `current_round`; it is at step 5 and completed at the last update
   * exactly when the project is completed or waiting, else at step 1; the
   * project awaits confirmation exactly when waiting.
   */
  function RowToProject(row: ProjectRow): (p: Project)
    ensures p.id == row.id && p.country == row.country && p.segment == row.segment && p.status == row.status
    ensures p.currentRound == row.currentRound && p.createdAt == row.createdAt && p.updatedAt == row.updatedAt
    ensures |p.rounds| == 1 && p.rounds[0].id == "round-" + row.id && p.rounds[0].roundNumber == row.currentRound
    ensures p.rounds[0].testType == row.testType && p.rounds[0].startedAt == row.createdAt
    ensures (p.rounds[0].currentStep == 5) == (row.status == Completed || row.status == Waiting)
    ensures p.rounds[0].currentStep == 1 || p.rounds[0].currentStep == 5
    ensures p.rounds[0].completedAt.Some? <==> row.status == Completed || row.status == Waiting
    ensures p.rounds[0].completedAt.Some? ==> p.rounds[0].completedAt.value == row.updatedAt
    ensures p.awaitingConfirmation == Some(row.status == Waiting) && p.confirmedAt.None?
  {
    var done := row.status == Completed || row.status == Waiting;
    Project(row.id, row.country, row.segment, row.status, row.currentRound,
            [WorkflowRound("round-" + row.id, row.currentRound, row.testType, ShownStep(row.status), row.createdAt,
                           if done then Some(row.updatedAt) else None, None)],
            row.createdAt, row.updatedAt, None, Some(row.status == Waiting))
  }

  /** Rows newest first, as the query requests them. */
  function NewestFirst(): (ProjectRow, ProjectRow) -> bool {
    (a: ProjectRow, b: ProjectRow) => LexLe(b.createdAt, a.createdAt)
  }

  function ReadRows(rows: seq<ProjectRow>): (r: seq<Project>)
    ensures |r| == |rows| && forall i :: 0 <= i < |rows| ==> r[i] == RowToProject(rows[i])
  {
    seq(|rows|, i requires 0 <= i < |rows| => RowToProject(rows[i]))
  }

  /** The fetched page holds every row once, newest first. */
  lemma FetchNewestFirst(rows: seq<ProjectRow>)
    ensures var sorted := SortBy(rows, NewestFirst());
            multiset(sorted) == multiset(rows) &&
            forall i, j :: 0 <= i < j < |sorted| ==> LexLe(ReadRows(sorted)[j].createdAt, ReadRows(sorted)[i].createdAt)
  {
    var le := NewestFirst();
    assert TotalPreorder(le) by {
      forall a: ProjectRow, b: ProjectRow
        ensures le(a, b) || le(b, a)
      {
        LexLeTotal(a.createdAt, b.createdAt);
      }
      forall a: ProjectRow, b: ProjectRow, c: ProjectRow | le(a, b) && le(b, c)
        ensures le(a, c)
      {
        LexLeTrans(c.createdAt, b.createdAt, a.createdAt);
      }
    }
    SortByCorrect(rows, le);
    var sorted := SortBy(rows, le);
    forall i, j | 0 <= i < j < |sorted|
      ensures LexLe(ReadRows(sorted)[j].createdAt, ReadRows(sorted)[i].createdAt)
    {
      assert le(sorted[i], sorted[j]);
    }
  }

  /** The status `updateProjectStep` writes: waiting for step 5, in progress for every other step. */
  function StepStatus(step: WorkflowStep): (s: ProjectStatus)
    ensures s == Waiting <==> step == 5
    ensures s == InProgress <==> step != 5
  {
    if step == 5 then Waiting else InProgress
  }

  /**
   * Read back after `updateProjectStep`, a project awaits confirmation and
   * shows step 5 exactly when the step written was 5; otherwise it shows
   * step 1, whatever step was chosen.
   */
  lemma StepThenRead(row: ProjectRow, step: WorkflowStep, now: string)
    ensures var p := RowToProject(row.(status := StepStatus(step), updatedAt := now));
            (p.awaitingConfirmation == Some(true) <==> step == 5) &&
            (p.rounds[0].currentStep == 5 <==> step == 5) &&
            (step != 5 ==> p.rounds[0].currentStep == 1 && p.rounds[0].completedAt.None?) &&
            (step == 5 ==> p.rounds[0].completedAt == Some(now))
  {
  }

  /**
   * The database hook: the page's projects and the `projects` table. A
   * write that fails (`ok` false) is only logged; writes do not refresh
   * the page, which follows the table through `Fetch`.
   */
  class ProjectsHook {
    var projects: seq<Project>
    var rows: seq<ProjectRow>

    constructor (rows: seq<ProjectRow>)
      ensures projects == [] && this.rows == rows
    {
      projects := [];
      this.rows := rows;
    }

    /** `fetchProjects`: newest first; a failed query keeps the page. */
    method Fetch(ok: bool)
      modifies this
      ensures rows == old(rows)
      ensures projects == if ok then ReadRows(SortBy(rows, NewestFirst())) else old(projects)
    {
      if ok {
        projects := ReadRows(SortBy(rows, NewestFirst()));
      }
    }

    /** `addProject`: inserts an in-progress row at round 1 (id and times are the database's) and answers it read back. */
    method AddProject(country: string, segment: Segment, testType: TestType, id: string, now: string, ok: bool)
      returns (created: Option<Project>)
      modifies this
      ensures projects == old(projects)
      ensures ok ==> rows == old(rows) + [ProjectRow(id, country, segment, testType, InProgress, 1, now, now)] &&
                     created == Some(RowToProject(rows[|rows| - 1]))
      ensures ok ==> created.value.status == InProgress && created.value.currentRound == 1 &&
                     created.value.rounds[0].currentStep == 1 && created.value.awaitingConfirmation == Some(false)
      ensures !ok ==> rows == old(rows) && created.None?
    {
      if !ok {
        return None;
      }
      var row := ProjectRow(id, country, segment, testType, InProgress, 1, now, now);
      rows := rows + [row];
      created := Some(RowToProject(row));
    }

    /** `updateProjectStep`: only the status (and the time) is written. */
    method UpdateProjectStep(projectId: string, step: WorkflowStep, now: string, ok: bool)
      modifies this
      ensures projects == old(projects)
      ensures ok ==> rows == UpdateWhere(old(rows), (row: ProjectRow) => row.id == projectId, (row: ProjectRow) => row.(status := StepStatus(step), updatedAt := now))
      ensures !ok ==> rows == old(rows)
    {
      if ok {
        rows := UpdateWhere(rows, (row: ProjectRow) => row.id == projectId, (row: ProjectRow) => row.(status := StepStatus(step), updatedAt := now));
      }
    }

    /** `startNewRound`: the page's round plus one, the new test type, in progress; no-op when the project is not on the page. */
    method StartNewRound(projectId: string, testType: TestType, now: string, ok: bool)
      modifies this
      ensures projects == old(projects)
      ensures FindProject(projects, projectId).None? || !ok ==> rows == old(rows)
      ensures FindProject(projects, projectId).Some? && ok ==>
                var next := projects[FindProject(projects, projectId).value].currentRound + 1;
                rows == UpdateWhere(old(rows), (row: ProjectRow) => row.id == projectId,
                                   (row: ProjectRow) => row.(currentRound := next, testType := testType, status := InProgress, updatedAt := now))
    {
      var found := FindProject(projects, projectId);
      if found.None? || !ok {
        return;
      }
      var next := projects[found.value].currentRound + 1;
      rows := UpdateWhere(rows, (row: ProjectRow) => row.id == projectId,
                         (row: ProjectRow) => row.(currentRound := next, testType := testType, status := InProgress, updatedAt := now));
    }

    /** `confirmProject`: writes status completed. */
    method ConfirmProject(projectId: string, now: string, ok: bool)
      modifies this
      ensures projects == old(projects)
      ensures ok ==> rows == UpdateWhere(old(rows), (row: ProjectRow) => row.id == projectId, (row: ProjectRow) => row.(status := Completed, updatedAt := now))
      ensures !ok ==> rows == old(rows)
    {
      if ok {
        rows := UpdateWhere(rows, (row: ProjectRow) => row.id == projectId, (row: ProjectRow) => row.(status := Completed, updatedAt := now));
      }
    }
  }
}
