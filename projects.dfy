/** ProjectsController: list, create, edit and delete projects. Each action takes the
    signed-in user as GetCurrentUser resolves it (None where that returns null). */
module Projects {
  import opened Models
  import opened Referential
  import opened Services
  import opened Authorization
  import opened ActionResults

  class ProjectsController {
    const context: ApplicationDbContext

    constructor (context: ApplicationDbContext)
      ensures this.context == context
    {
      this.context := context;
    }

    /** GetCurrentUser: the user row whose Id is the signed-in identifier, or None when
        there is no identifier or no such row. */
    function GetCurrentUser(claimedId: Option<int>): (r: Option<User>)
      reads context
      requires context.Valid()
      ensures r.Some? <==> claimedId.Some? && claimedId.value in context.users
      ensures r.Some? ==> r.value.id == claimedId.value && context.users[r.value.id] == r.value
    {
      match claimedId
      case None => None
      case Some(id) => if id in context.users then Some(context.users[id]) else None
    }

    /** ProjectExists: some row has this Id. */
    function ProjectExists(id: int): (r: bool)
      reads context
      requires context.Valid()
      ensures r <==> id in context.projects
    {
      exists k :: k in context.projects && context.projects[k].id == id
    }

    /** Index: every project with its owner, for anyone. */
    method Index() returns (listing: map<int, (Project, User)>)
      requires context.Valid()
      ensures listing.Keys == context.projects.Keys
      ensures forall id :: id in listing ==>
        context.projects[id].ownerId in context.users
        && listing[id] == (context.projects[id], context.users[context.projects[id].ownerId])
    {
      listing := WithOwners(context.users, context.projects);
      WithOwnersComplete(context.users, context.projects, context.tasks);
    }

    /** Create (GET): a blank project form, for a Manager or TeamLeader only. */
    method CreateForm(current: Option<User>) returns (r: Outcome, form: Option<Project>)
      ensures r == Ok <==> IsLead(current)
      ensures r != Ok ==> r == Unauthorized && form == None
      ensures r == Ok ==> form == Some(NewProject())
    {
      if !IsLead(current) {
        return Unauthorized, None;
      }
      return Ok, Some(NewProject());
    }

    /** Create (POST): a Manager or TeamLeader adds a valid project, which is always owned
        by that user and numbered by the identity column. The database refuses a row that
        brings its own Id (the identity column takes no explicit value) or whose foreign keys
        dangle; the exception this raises is not caught, so the answer is a server error and
        the tables stay as they were. */
    method Create(current: Option<User>, project: Project, saveOk: bool) returns (r: Outcome)
      requires context.Valid()
      modifies context
      ensures context.Valid()
      ensures old(AllValid(context.projects, context.tasks)) ==> AllValid(context.projects, context.tasks)
      ensures !IsLead(current) ==> r == Unauthorized
      ensures IsLead(current) && !ProjectValid(project) ==> r == Invalid(ModelErrors)
      ensures IsLead(current) && ProjectValid(project) ==>
        r == (if saveOk && project.id == 0
                 && ProjectRefsExist(old(context.users), project.(ownerId := current.value.id))
              then Ok else ServerError)
      ensures r == Ok ==>
        var id := old(context.nextProjectId);
        && context.projects == old(context.projects)[id := project.(id := id, ownerId := current.value.id)]
        && context.projects[id].ownerId == current.value.id
        && context.nextProjectId == id + 1
        && context.users == old(context.users) && context.tasks == old(context.tasks)
        && context.nextTaskId == old(context.nextTaskId)
      ensures r != Ok ==> unchanged(context)
    {
      if !IsLead(current) {
        return Unauthorized;
      }
      var row := project.(ownerId := current.value.id);
      if !ProjectValid(row) {
        return Invalid(ModelErrors);
      }
      if !saveOk || row.id != 0 || !ProjectRefsExist(context.users, row) {
        return ServerError;
      }
      var id := context.nextProjectId;
      InsertProjectConsistent(context.users, context.projects, context.tasks, row, id);
      context.projects := context.projects[id := row.(id := id)];
      context.nextProjectId := id + 1;
      r := Ok;
    }

    /** Edit (GET): the project, for a Manager, a TeamLeader or its owner. */
    method EditForm(id: int, current: Option<User>) returns (r: Outcome, form: Option<Project>)
      requires context.Valid()
      ensures id !in context.projects ==> r == NotFound
      ensures id in context.projects ==>
        r == (if IsLeadOrOwner(current, context.projects[id]) then Ok else Unauthorized)
      ensures r == Ok ==> id in context.projects && form == Some(context.projects[id])
      ensures r != Ok ==> form == None
    {
      if id !in context.projects {
        return NotFound, None;
      }
      var project := context.projects[id];
      if !IsLeadOrOwner(current, project) {
        return Unauthorized, None;
      }
      return Ok, Some(project);
    }

    /** Edit (POST): only a Manager or TeamLeader may save, the owner is not admitted; the
        stored project keeps its owner, contributor and id and takes the submitted Name and
        Description. */
    method Edit(id: int, current: Option<User>, project: Project, saveOk: bool) returns (r: Outcome)
      requires context.Valid()
      modifies context
      ensures context.Valid()
      ensures old(AllValid(context.projects, context.tasks)) ==> AllValid(context.projects, context.tasks)
      ensures id != project.id ==> r == NotFound
      ensures id == project.id && !IsLead(current) ==> r == Unauthorized
      ensures id == project.id && IsLead(current) && id !in old(context.projects) ==> r == NotFound
      ensures id == project.id && IsLead(current) && id in old(context.projects) ==>
        r == (if !ProjectValid(project) then Invalid(ModelErrors) else if saveOk then Ok else ServerError)
      ensures r == Ok ==>
        && id in old(context.projects)
        && context.projects == Renamed(old(context.projects), id, project.name, project.description)
        && context.projects[id].ownerId == old(context.projects)[id].ownerId
        && context.users == old(context.users) && context.tasks == old(context.tasks)
        && context.nextProjectId == old(context.nextProjectId)
        && context.nextTaskId == old(context.nextTaskId)
      ensures r != Ok ==> unchanged(context)
    {
      if id != project.id {
        return NotFound;
      }
      if !IsLead(current) {
        return Unauthorized;
      }
      if id !in context.projects {
        return NotFound;
      }
      if !ProjectValid(project) {
        return Invalid(ModelErrors);
      }
      if !saveOk {
        return ServerError;
      }
      RenamedKeepsRest(context.users, context.projects, context.tasks, id, project.name, project.description);
      context.projects := Renamed(context.projects, id, project.name, project.description);
      r := Ok;
    }

    /** Delete (GET): the confirmation page, for a Manager, a TeamLeader or the owner. */
    method Delete(id: int, current: Option<User>) returns (r: Outcome, form: Option<Project>)
      requires context.Valid()
      ensures id !in context.projects ==> r == NotFound
      ensures id in context.projects ==>
        r == (if IsLeadOrOwner(current, context.projects[id]) then Ok else Unauthorized)
      ensures r == Ok ==> id in context.projects && form == Some(context.projects[id])
      ensures r != Ok ==> form == None
    {
      if id !in context.projects {
        return NotFound, None;
      }
      var project := context.projects[id];
      if !IsLeadOrOwner(current, project) {
        return Unauthorized, None;
      }
      return Ok, Some(project);
    }

    /** Delete (POST): a Manager, a TeamLeader or the owner removes the project's tasks one
        by one, then the project, and saves. A failed save changes nothing. */
    method DeleteConfirmed(id: int, current: Option<User>, saveOk: bool) returns (r: Outcome)
      requires context.Valid()
      modifies context
      ensures context.Valid()
      ensures old(AllValid(context.projects, context.tasks)) ==> AllValid(context.projects, context.tasks)
      ensures id !in old(context.projects) ==> r == NotFound
      ensures id in old(context.projects) ==>
        r == (if !IsLeadOrOwner(current, old(context.projects)[id]) then Unauthorized
              else if saveOk then Ok else ServerError)
      ensures r == Ok ==>
        && context.projects == old(context.projects) - {id}
        && context.tasks == Cascade(old(context.tasks), id)
        && context.users == old(context.users)
        && context.nextProjectId == old(context.nextProjectId)
        && context.nextTaskId == old(context.nextTaskId)
      ensures r != Ok ==> unchanged(context)
    {
      if id !in context.projects {
        return NotFound;
      }
      if !IsLeadOrOwner(current, context.projects[id]) {
        return Unauthorized;
      }
      // project.Tasks, each marked for removal in the change tracker
      var doomed := TasksOf(context.tasks, id).Keys;
      var tracked := context.tasks;
      var pending := doomed;
      while pending != {}
        invariant pending <= doomed
        invariant tracked == context.tasks - (doomed - pending)
        modifies {}
        decreases pending
      {
        NonEmptyHasMember(pending);
        var taskId :| taskId in pending;
        tracked := tracked - {taskId};
        pending := pending - {taskId};
      }
      if !saveOk {
        return ServerError;
      }
      CascadeConsistent(context.users, context.projects, context.tasks, id);
      context.tasks := tracked;
      context.projects := context.projects - {id};
      r := Ok;
    }
  }
}
