/** ApplicationDbContext: the Users, Projects and Tasks tables, and the identity columns
    that number new projects and tasks. */
module Services {
  import opened Models
  import opened Referential

  class ApplicationDbContext {
    var users: Users
    var projects: Projects
    var tasks: Tasks
    /** The next values of the identity columns of Projects and Tasks. */
    var nextProjectId: int
    var nextTaskId: int

    /** The foreign keys hold, and every stored id lies below its identity counter. */
    ghost predicate Valid()
      reads this
    {
      && Consistent(users, projects, tasks)
      && (forall id :: id in projects ==> id < nextProjectId)
      && (forall id :: id in tasks ==> id < nextTaskId)
    }

    /** A database holding the given users and no project or task; both identity columns
        start at 1. */
    constructor (users: Users)
      requires forall id :: id in users ==> users[id].id == id
      ensures Valid()
      ensures this.users == users && projects == map[] && tasks == map[]
      ensures nextProjectId == 1 && nextTaskId == 1
    {
      this.users := users;
      projects, tasks := map[], map[];
      nextProjectId, nextTaskId := 1, 1;
    }
  }
}
