/**
 * The entity shapes of the project-management client (its zod schemas and the
 * `Pick`/`pick` projections derived from them). Every schema becomes a datatype;
 * every projection becomes a function that keeps exactly the picked fields.
 * The field `_id` is written `id`.
 */
module Types {
  import opened Wrappers

  /** The task status enum: exactly five values, in declaration order. */
  datatype TaskStatus = Pending | OnHold | InProgress | UnderReview | Completed

  /** The five statuses in the order the enum declares them. */
  const AllStatuses: seq<TaskStatus> := [Pending, OnHold, InProgress, UnderReview, Completed]

  /** The position of a status in the enum's declaration order. */
  function StatusIndex(s: TaskStatus): (i: nat)
    ensures i < |AllStatuses| && AllStatuses[i] == s
  {
    match s
    case Pending => 0
    case OnHold => 1
    case InProgress => 2
    case UnderReview => 3
    case Completed => 4
  }

  /** The wire name of a status, as the enum spells it. */
  function StatusName(s: TaskStatus): string
  {
    match s
    case Pending => "pending"
    case OnHold => "onHold"
    case InProgress => "inProgress"
    case UnderReview => "underReview"
    case Completed => "completed"
  }

  /** Parsing a string against the status enum: a status exactly when the string is one of the five names. */
  function ParseStatus(name: string): (r: Option<TaskStatus>)
    ensures r.Some? ==> StatusName(r.value) == name
    ensures r.None? ==> forall s :: StatusName(s) != name
  {
    if name == "pending" then Some(Pending)
    else if name == "onHold" then Some(OnHold)
    else if name == "inProgress" then Some(InProgress)
    else if name == "underReview" then Some(UnderReview)
    else if name == "completed" then Some(Completed)
    else None
  }

  /** The enum lists every status once. */
  lemma AllStatusesEnumerated()
    ensures |AllStatuses| == 5
    ensures forall s :: s in AllStatuses
    ensures forall i, j :: 0 <= i < j < |AllStatuses| ==> AllStatuses[i] != AllStatuses[j]
  {
    forall s: TaskStatus ensures s in AllStatuses {
      match s
      case Pending => assert AllStatuses[0] == s;
      case OnHold => assert AllStatuses[1] == s;
      case InProgress => assert AllStatuses[2] == s;
      case UnderReview => assert AllStatuses[3] == s;
      case Completed => assert AllStatuses[4] == s;
    }
  }

  /** Naming a status and parsing the name gives the status back. */
  lemma ParseStatusName(s: TaskStatus)
    ensures ParseStatus(StatusName(s)) == Some(s)
    ensures StatusName(s) != ""
  {
  }

  /** Distinct statuses have distinct names. */
  lemma StatusNameInjective(s: TaskStatus, t: TaskStatus)
    ensures StatusName(s) == StatusName(t) ==> s == t
  {
    ParseStatusName(s);
    ParseStatusName(t);
  }

  // ----- users and notes -----

  datatype User = User(id: string, name: string, email: string)

  /** A team member picks every field of a user. */
  type TeamMember = User

  datatype Note = Note(id: string, content: string, createdBy: User, task: string, createdAt: string)

  // ----- tasks -----

  /** One entry of a task's `completedBy` log: who changed it, and to which status. */
  datatype StatusChange = StatusChange(id: string, user: User, status: TaskStatus)

  datatype Task = Task(
    id: string,
    name: string,
    description: string,
    project: string,
    status: TaskStatus,
    completedBy: seq<StatusChange>,
    notes: seq<Note>,
    createdAt: string,
    updatedAt: string)

  /** The summary form of a task that a project carries. */
  datatype TaskProject = TaskProject(id: string, name: string, description: string, status: TaskStatus)

  /** The task form: name and description. */
  datatype TaskFormData = TaskFormData(name: string, description: string)

  /** `taskSchema.pick({_id, name, description, status})`. */
  function ToTaskProject(t: Task): (r: TaskProject)
    ensures r.id == t.id && r.name == t.name
    ensures r.description == t.description && r.status == t.status
  {
    TaskProject(t.id, t.name, t.description, t.status)
  }

  /** `Pick<Task, "name" | "description">`. */
  function ToTaskFormData(t: Task): (r: TaskFormData)
    ensures r.name == t.name && r.description == t.description
  {
    TaskFormData(t.name, t.description)
  }

  /** Rebuilds a task from its summary and the fields the summary drops. */
  function WithTaskDetails(tp: TaskProject, project: string, completedBy: seq<StatusChange>,
                           notes: seq<Note>, createdAt: string, updatedAt: string): Task
  {
    Task(tp.id, tp.name, tp.description, project, tp.status, completedBy, notes, createdAt, updatedAt)
  }

  /** The summary loses exactly the project, the log, the notes and the timestamps. */
  lemma TaskProjectRoundTrip(t: Task)
    ensures WithTaskDetails(ToTaskProject(t), t.project, t.completedBy, t.notes, t.createdAt, t.updatedAt) == t
  {
  }

  /** A task's status and every status in its `completedBy` log come from the one enum. */
  lemma TaskStatusesFromEnum(t: Task)
    ensures t.status in AllStatuses
    ensures forall c :: c in t.completedBy ==> c.status in AllStatuses
  {
    AllStatusesEnumerated();
  }

  // ----- projects -----

  datatype Project = Project(
    id: string,
    projectName: string,
    clientName: string,
    description: string,
    manager: string,
    tasks: seq<TaskProject>,
    team: seq<string>)

  /** One element of the dashboard list. */
  datatype DashboardProject = DashboardProject(
    id: string,
    projectName: string,
    clientName: string,
    description: string,
    manager: string)

  /** The project form, which is also the shape `editProjectSchema` picks. */
  datatype ProjectFormData = ProjectFormData(projectName: string, clientName: string, description: string)

  /** `projectSchema.pick({_id, projectName, clientName, description, manager})`. */
  function ToDashboardProject(p: Project): (r: DashboardProject)
    ensures r.id == p.id && r.manager == p.manager
    ensures r.projectName == p.projectName && r.clientName == p.clientName && r.description == p.description
  {
    DashboardProject(p.id, p.projectName, p.clientName, p.description, p.manager)
  }

  /** `dashboardProjectSchema`: the projection applied to every project of a list, in order. */
  function ToDashboard(ps: seq<Project>): (r: seq<DashboardProject>)
    ensures |r| == |ps|
    ensures forall i :: 0 <= i < |ps| ==> r[i] == ToDashboardProject(ps[i])
  {
    if ps == [] then [] else [ToDashboardProject(ps[0])] + ToDashboard(ps[1..])
  }

  /** `editProjectSchema` / `ProjectFormData`: name, client and description. */
  function ToProjectFormData(p: Project): (r: ProjectFormData)
    ensures r.projectName == p.projectName && r.clientName == p.clientName && r.description == p.description
  {
    ProjectFormData(p.projectName, p.clientName, p.description)
  }

  /** The same three fields, picked from a dashboard element. */
  function DashboardFormData(d: DashboardProject): ProjectFormData
  {
    ProjectFormData(d.projectName, d.clientName, d.description)
  }

  /** Rebuilds a project from its dashboard element and the two lists the dashboard drops. */
  function WithProjectDetails(d: DashboardProject, tasks: seq<TaskProject>, team: seq<string>): Project
  {
    Project(d.id, d.projectName, d.clientName, d.description, d.manager, tasks, team)
  }

  /** The dashboard element loses exactly the task list and the team. */
  lemma DashboardRoundTrip(p: Project)
    ensures WithProjectDetails(ToDashboardProject(p), p.tasks, p.team) == p
  {
  }

  /** Picking the form fields commutes with the dashboard projection. */
  lemma FormDataThroughDashboard(p: Project)
    ensures DashboardFormData(ToDashboardProject(p)) == ToProjectFormData(p)
  {
  }

  /** The task summaries of a full project list keep their ids and statuses. */
  lemma SummariesKeepIdAndStatus(ts: seq<Task>)
    ensures forall i :: 0 <= i < |ts| ==>
      ToTaskProject(ts[i]).id == ts[i].id && ToTaskProject(ts[i]).status == ts[i].status
  {
  }

  // ----- remaining form subsets -----

  datatype NoteFormData = NoteFormData(content: string)

  function ToNoteFormData(n: Note): (r: NoteFormData)
    ensures r.content == n.content
  {
    NoteFormData(n.content)
  }

  datatype UserProfileForm = UserProfileForm(name: string, email: string)

  function ToUserProfileForm(u: User): (r: UserProfileForm)
    ensures r.name == u.name && r.email == u.email
  {
    UserProfileForm(u.name, u.email)
  }

  /** `Pick<teamMember, "email">`, the add-member form. */
  datatype TeamMemberForm = TeamMemberForm(email: string)

  /** `teamMemberSchema` picks every field of a user; the form keeps only the email. */
  function ToTeamMemberForm(m: TeamMember): (r: TeamMemberForm)
    ensures r.email == m.email
  {
    TeamMemberForm(m.email)
  }
}
