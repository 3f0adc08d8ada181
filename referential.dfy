/** The three tables as values, the relations between them that the schema's foreign keys
    impose, the queries the controllers run, and the effect of each write on the tables. */
module Referential {
  import opened Models

  type Users = map<int, User>
  type Projects = map<int, Project>
  type Tasks = map<int, Task>

  /** The foreign keys of a project row: OwnerId (required) and UserId (optional). */
  predicate ProjectRefsExist(users: Users, p: Project) {
    p.ownerId in users && (p.userId.Some? ==> p.userId.value in users)
  }

  /** The foreign keys of a task row: ProjectId and AssignedToId, both required. */
  predicate TaskRefsExist(users: Users, projects: Projects, t: Task) {
    t.projectId in projects && t.assignedToId.Some? && t.assignedToId.value in users
  }

  /** Every row is stored under its own Id, every project's owner (and contributor, when
      there is one) is a user, and every task belongs to a project and is assigned to a
      user. */
  predicate Consistent(users: Users, projects: Projects, tasks: Tasks) {
    && (forall id :: id in users ==> users[id].id == id)
    && (forall id :: id in projects ==> projects[id].id == id && ProjectRefsExist(users, projects[id]))
    && (forall id :: id in tasks ==> tasks[id].id == id && TaskRefsExist(users, projects, tasks[id]))
  }

  /** Every project and task row passes the model validation it was submitted under. */
  predicate AllValid(projects: Projects, tasks: Tasks) {
    && (forall id :: id in projects ==> ProjectValid(projects[id]))
    && (forall id :: id in tasks ==> TaskValid(tasks[id]))
  }

  // ----- Queries -----

  /** The tasks of one project (the Project.Tasks navigation). */
  function TasksOf(tasks: Tasks, projectId: int): Tasks {
    map id | id in tasks && tasks[id].projectId == projectId :: tasks[id]
  }

  /** Projects with their Owner included: an inner join on OwnerId. */
  function WithOwners(users: Users, projects: Projects): map<int, (Project, User)> {
    map id | id in projects && projects[id].ownerId in users :: (projects[id], users[projects[id].ownerId])
  }

  /** The join loses no project, because every owner is a user. */
  lemma WithOwnersComplete(users: Users, projects: Projects, tasks: Tasks)
    requires Consistent(users, projects, tasks)
    ensures WithOwners(users, projects).Keys == projects.Keys
    ensures forall id :: id in projects ==>
      WithOwners(users, projects)[id] == (projects[id], users[projects[id].ownerId])
  {
    forall id | id in projects
      ensures id in WithOwners(users, projects)
    {
      assert ProjectRefsExist(users, projects[id]);
    }
  }

  /** User.OwnedProjects. */
  function OwnedProjects(projects: Projects, userId: int): set<int> {
    set id | id in projects && projects[id].ownerId == userId
  }

  /** User.ContributedProjects (projects whose UserId column names the user). */
  function ContributedProjects(projects: Projects, userId: int): set<int> {
    set id | id in projects && projects[id].userId == Some(userId)
  }

  /** User.AssignedTasks. */
  function AssignedTasks(tasks: Tasks, userId: int): set<int> {
    set id | id in tasks && tasks[id].assignedToId == Some(userId)
  }

  /** A user that is not yet in the table owns, contributes to and is assigned nothing: a
      new user's three collections start empty. */
  lemma UnknownUserUnrelated(users: Users, projects: Projects, tasks: Tasks, userId: int)
    requires Consistent(users, projects, tasks)
    requires userId !in users
    ensures OwnedProjects(projects, userId) == {}
    ensures ContributedProjects(projects, userId) == {}
    ensures AssignedTasks(tasks, userId) == {}
  {
    forall id | id in projects
      ensures projects[id].ownerId != userId && projects[id].userId != Some(userId)
    {
      assert ProjectRefsExist(users, projects[id]);
    }
    forall id | id in tasks
      ensures tasks[id].assignedToId != Some(userId)
    {
      assert TaskRefsExist(users, projects, tasks[id]);
    }
  }

  // ----- Inserts (Create POST of either controller) -----

  /** Inserting a project whose foreign keys hold, under a fresh id, keeps the tables
      consistent and adds exactly one row. */
  lemma InsertProjectConsistent(users: Users, projects: Projects, tasks: Tasks, p: Project, newId: int)
    requires Consistent(users, projects, tasks)
    requires newId !in projects && ProjectRefsExist(users, p)
    ensures Consistent(users, projects[newId := p.(id := newId)], tasks)
    ensures |projects[newId := p.(id := newId)]| == |projects| + 1
  {
  }

  /** Inserting a task whose foreign keys hold, under a fresh id, keeps the tables
      consistent, adds exactly one row, and adds it to its project's tasks only. */
  lemma InsertTaskConsistent(users: Users, projects: Projects, tasks: Tasks, t: Task, newId: int)
    requires Consistent(users, projects, tasks)
    requires newId !in tasks && TaskRefsExist(users, projects, t)
    ensures Consistent(users, projects, tasks[newId := t.(id := newId)])
    ensures |tasks[newId := t.(id := newId)]| == |tasks| + 1
    ensures TasksOf(tasks[newId := t.(id := newId)], t.projectId)
            == TasksOf(tasks, t.projectId)[newId := t.(id := newId)]
    ensures forall q :: q != t.projectId ==>
      TasksOf(tasks[newId := t.(id := newId)], q) == TasksOf(tasks, q)
  {
  }

  // ----- Edit POST -----

  /** The project `id` with Name and Description overwritten, every other column and row
      as it was. */
  function Renamed(projects: Projects, id: int, name: string, description: string): Projects
    requires id in projects
  {
    projects[id := projects[id].(name := name, description := description)]
  }

  /** Renaming changes only the two text columns of one row, so it keeps the tables
      consistent. */
  lemma RenamedKeepsRest(users: Users, projects: Projects, tasks: Tasks, id: int, name: string, description: string)
    requires Consistent(users, projects, tasks)
    requires id in projects
    ensures Renamed(projects, id, name, description).Keys == projects.Keys
    ensures var p := Renamed(projects, id, name, description)[id];
      p.id == id && p.ownerId == projects[id].ownerId && p.userId == projects[id].userId
      && p.name == name && p.description == description
    ensures forall k :: k in projects && k != id ==> Renamed(projects, id, name, description)[k] == projects[k]
    ensures Consistent(users, Renamed(projects, id, name, description), tasks)
  {
  }

  // ----- DeleteConfirmed -----

  /** The task table once a project's tasks are removed. */
  function Cascade(tasks: Tasks, projectId: int): Tasks {
    tasks - TasksOf(tasks, projectId).Keys
  }

  /** The cascade removes exactly the tasks of the project and leaves the others as they were. */
  lemma CascadeRemovesExactly(tasks: Tasks, projectId: int)
    ensures forall id :: id in Cascade(tasks, projectId) <==> id in tasks && tasks[id].projectId != projectId
    ensures forall id :: id in Cascade(tasks, projectId) ==> Cascade(tasks, projectId)[id] == tasks[id]
    ensures TasksOf(Cascade(tasks, projectId), projectId) == map[]
  {
  }

  /** The cascade removes as many rows as the project has tasks. */
  lemma CascadeCount(tasks: Tasks, projectId: int)
    ensures |Cascade(tasks, projectId)| + |TasksOf(tasks, projectId)| == |tasks|
  {
  }

  /** A non-empty set of ids has a member to pick. */
  lemma NonEmptyHasMember(s: set<int>)
    requires s != {}
    ensures exists x :: x in s
  {
    if forall x :: x !in s {
    }
  }

  /** Another project's tasks are untouched by the cascade. */
  lemma CascadeKeepsOtherProjects(tasks: Tasks, projectId: int, other: int)
    requires other != projectId
    ensures TasksOf(Cascade(tasks, projectId), other) == TasksOf(tasks, other)
  {
  }

  /** Removing a project together with its tasks keeps the tables consistent. */
  lemma CascadeConsistent(users: Users, projects: Projects, tasks: Tasks, projectId: int)
    requires Consistent(users, projects, tasks)
    ensures Consistent(users, projects - {projectId}, Cascade(tasks, projectId))
  {
  }

  // ----- ToggleComplete -----

  /** The task with its completion flag inverted. */
  function Flip(t: Task): Task {
    t.(isComplete := !t.isComplete)
  }

  /** The task table with task `id` flipped. */
  function Toggled(tasks: Tasks, id: int): Tasks
    requires id in tasks
  {
    tasks[id := Flip(tasks[id])]
  }

  /** Toggling changes the flag of one task and nothing else, and is its own inverse. */
  lemma ToggledTwice(tasks: Tasks, id: int)
    requires id in tasks
    ensures Toggled(tasks, id).Keys == tasks.Keys
    ensures Toggled(tasks, id)[id].isComplete == !tasks[id].isComplete
    ensures Toggled(tasks, id)[id].(isComplete := tasks[id].isComplete) == tasks[id]
    ensures forall k :: k in tasks && k != id ==> Toggled(tasks, id)[k] == tasks[k]
    ensures Toggled(Toggled(tasks, id), id) == tasks
  {
  }

  /** Toggling keeps the tables consistent and every row valid. */
  lemma ToggledConsistent(users: Users, projects: Projects, tasks: Tasks, id: int)
    requires Consistent(users, projects, tasks) && id in tasks
    ensures Consistent(users, projects, Toggled(tasks, id))
    ensures AllValid(projects, tasks) ==> AllValid(projects, Toggled(tasks, id))
  {
  }
}
