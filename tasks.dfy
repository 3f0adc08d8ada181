/** TasksController: list a project's tasks, create tasks and toggle their completion.
    The whole controller demands a signed-in user; creating a task also demands the role
    Manager or TeamLeader. */
module Tasks {
  import opened Models
  import opened Referential
  import opened Services
  import opened Authorization
  import opened ActionResults

  class TasksController {
    const context: ApplicationDbContext

    constructor (context: ApplicationDbContext)
      ensures this.context == context
    {
      this.context := context;
    }

    /** Index: exactly the tasks of an existing project. */
    method Index(projectId: int, current: Option<User>) returns (r: Outcome, list: Tasks)
      requires context.Valid()
      ensures current.None? ==> r == Unauthorized
      ensures current.Some? && projectId !in context.projects ==> r == NotFound
      ensures current.Some? && projectId in context.projects ==> r == Ok
      ensures r != Ok ==> list == map[]
      ensures r == Ok ==>
        && (forall id :: id in list <==> id in context.tasks && context.tasks[id].projectId == projectId)
        && (forall id :: id in list ==> list[id] == context.tasks[id])
    {
      if current.None? {
        return Unauthorized, map[];
      }
      if projectId !in context.projects {
        return NotFound, map[];
      }
      return Ok, TasksOf(context.tasks, projectId);
    }

    /** Create (GET): a blank task for an existing project. No role is required here. */
    method CreateForm(projectId: int, current: Option<User>) returns (r: Outcome, form: Option<Task>)
      requires context.Valid()
      ensures current.None? ==> r == Unauthorized
      ensures current.Some? ==> r == (if projectId in context.projects then Ok else NotFound)
      ensures r != Ok ==> form == None
      ensures r == Ok ==>
        && form.Some?
        && form.value.projectId == projectId
        && !form.value.isComplete
        && form.value.assignedToId == None
        && !TaskValid(form.value)
    {
      if current.None? {
        return Unauthorized, None;
      }
      if projectId !in context.projects {
        return NotFound, None;
      }
      return Ok, Some(NewTask(projectId));
    }

    /** Create (POST): a Manager or TeamLeader adds a task. The checks run in order: model
        validation, then the project, then the assignee; a save the database refuses,
        including one of a task that brings its own Id (the identity column takes no explicit
        value), is reported on the form. Whatever is refused leaves the tables as they were. */
    method Create(task: Task, current: Option<User>, saveOk: bool) returns (r: Outcome)
      requires context.Valid()
      modifies context
      ensures context.Valid()
      ensures old(AllValid(context.projects, context.tasks)) ==> AllValid(context.projects, context.tasks)
      ensures !IsLead(current) ==> r == Unauthorized
      ensures IsLead(current) && !TaskValid(task) ==> r == Invalid(ModelErrors)
      ensures IsLead(current) && TaskValid(task) && task.projectId !in old(context.projects) ==>
        r == Invalid(UnknownProject)
      ensures IsLead(current) && TaskValid(task) && task.projectId in old(context.projects)
              && task.assignedToId.value !in old(context.users) ==>
        r == Invalid(UnknownAssignee)
      ensures IsLead(current) && TaskValid(task) && TaskRefsExist(old(context.users), old(context.projects), task) ==>
        r == (if saveOk && task.id == 0 then Ok else Invalid(SaveFailed))
      ensures r == Ok ==>
        var id := old(context.nextTaskId);
        && context.tasks == old(context.tasks)[id := task.(id := id)]
        && id !in old(context.tasks)
        && TaskRefsExist(context.users, context.projects, context.tasks[id])
        && context.nextTaskId == id + 1
        && context.users == old(context.users) && context.projects == old(context.projects)
        && context.nextProjectId == old(context.nextProjectId)
      ensures r != Ok ==> unchanged(context)
    {
      if !IsLead(current) {
        return Unauthorized;
      }
      if !TaskValid(task) {
        return Invalid(ModelErrors);
      }
      if task.projectId !in context.projects {
        return Invalid(UnknownProject);
      }
      if task.assignedToId.value !in context.users {
        return Invalid(UnknownAssignee);
      }
      if !saveOk || task.id != 0 {
        return Invalid(SaveFailed);
      }
      var id := context.nextTaskId;
      InsertTaskConsistent(context.users, context.projects, context.tasks, task, id);
      context.tasks := context.tasks[id := task.(id := id)];
      context.nextTaskId := id + 1;
      r := Ok;
    }

    /** ToggleComplete: any signed-in user flips the completion of an existing task. */
    method ToggleComplete(id: int, current: Option<User>, saveOk: bool) returns (r: Outcome)
      requires context.Valid()
      modifies context
      ensures context.Valid()
      ensures old(AllValid(context.projects, context.tasks)) ==> AllValid(context.projects, context.tasks)
      ensures current.None? ==> r == Unauthorized
      ensures current.Some? && id !in old(context.tasks) ==> r == NotFound
      ensures current.Some? && id in old(context.tasks) ==> r == (if saveOk then Ok else ServerError)
      ensures r == Ok ==>
        && id in old(context.tasks)
        && context.tasks == Toggled(old(context.tasks), id)
        && context.users == old(context.users) && context.projects == old(context.projects)
        && context.nextProjectId == old(context.nextProjectId)
        && context.nextTaskId == old(context.nextTaskId)
      ensures r != Ok ==> unchanged(context)
    {
      if current.None? {
        return Unauthorized;
      }
      if id !in context.tasks {
        return NotFound;
      }
      if !saveOk {
        return ServerError;
      }
      ToggledConsistent(context.users, context.projects, context.tasks, id);
      context.tasks := Toggled(context.tasks, id);
      r := Ok;
    }
  }
}
