/** The entities: User (Models/User.cs), Task (Models/Task.cs) and Project (its table in the
    schema), with the validation their annotations give them. */
module Models {
  import opened Annotations

  datatype Option<T> = None | Some(value: T)

  /** A DueDate value. Its calendar meaning plays no part in any rule, so it is opaque. */
  datatype DateTime = DateTime(ticks: int)

  /** default(DateTime), the value an unset DueDate holds. */
  const MinDate := DateTime(0)

  /** A row of the Users table. The navigation collections OwnedProjects,
      ContributedProjects and AssignedTasks are not columns: they are the queries
      Referential.OwnedProjects, Referential.ContributedProjects and
      Referential.AssignedTasks over the other tables. */
  datatype User = User(
    id: int,
    firstName: string,
    lastName: string,
    email: string,
    password: string,
    role: string)

  /** The initialiser of User.Password. */
  const DefaultPassword := "password123"

  /** The model-level rules of a User: names, e-mail and role are required, and the
      e-mail must be shaped like an address. The role is free text. */
  predicate UserValid(u: User) {
    && Required(u.firstName)
    && Required(u.lastName)
    && Required(u.email) && EmailAddress(u.email)
    && Required(u.role)
  }

  /** `new User { FirstName = .., LastName = .., Email = .., Role = .. }`: the id is not yet
      generated and the password takes its initialiser. */
  function NewUser(firstName: string, lastName: string, email: string, role: string): (u: User)
    ensures u.password == DefaultPassword
    ensures u.firstName == firstName && u.lastName == lastName
    ensures u.email == email && u.role == role
    ensures UserValid(u) <==> Required(firstName) && Required(lastName)
                              && Required(email) && EmailAddress(email) && Required(role)
  {
    User(0, firstName, lastName, email, DefaultPassword, role)
  }

  /** What a valid user's fields look like: non-empty names and role, and an e-mail with
      a non-empty local part and a non-empty domain around its only '@'. */
  lemma ValidUserFields(u: User)
    requires UserValid(u)
    ensures |u.firstName| > 0 && |u.lastName| > 0 && |u.role| > 0
    ensures exists at :: 0 < at < |u.email| - 1 && SoleAt(u.email, at)
  {
    EmailAddressShape(u.email);
  }

  /** A row of the Projects table: required Name and Description, the owner's id, and an
      optional contributor id (the UserId column). */
  datatype Project = Project(
    id: int,
    name: string,
    description: string,
    ownerId: int,
    userId: Option<int>)

  /** `new Project()`: every property at its default. */
  function NewProject(): (p: Project)
    ensures p.userId == None && !ProjectValid(p)
  {
    Project(0, "", "", 0, None)
  }

  /** Model validation of a submitted Project: Name and Description are required. */
  predicate ProjectValid(p: Project) {
    Required(p.name) && Required(p.description)
  }

  /** A row of the Tasks table. AssignedToId is a nullable int in the model class. */
  datatype Task = Task(
    id: int,
    title: string,
    description: string,
    isComplete: bool,
    dueDate: DateTime,
    projectId: int,
    assignedToId: Option<int>)

  const TitleMax: nat := 100
  const DescriptionMax: nat := 500

  /** Model validation of a submitted Task. DueDate and ProjectId are non-nullable value
      types, so their [Required] holds of every Task value; AssignedToId is nullable and
      its [Required] demands a value. */
  predicate TaskValid(t: Task) {
    && Required(t.title) && StringLength(t.title, TitleMax)
    && Required(t.description) && StringLength(t.description, DescriptionMax)
    && t.assignedToId.Some?
  }

  /** What a valid task's fields look like. The limits count UTF-16 code units, so a
      title made only of characters above U+FFFF holds at most 50 of them. */
  lemma ValidTaskFields(t: Task)
    requires TaskValid(t)
    ensures 0 < |t.title| <= 100
    ensures 0 < |t.description| <= 500
    ensures (forall i :: 0 <= i < |t.title| ==> t.title[i] as int > 0xFFFF) ==> |t.title| <= 50
    ensures t.assignedToId.Some?
  {
  }

  /** `new Task { ProjectId = projectId }`: IsComplete has no initialiser and so is false,
      nothing is assigned yet, and the blank form does not pass validation. */
  function NewTask(projectId: int): (t: Task)
    ensures t.projectId == projectId
    ensures !t.isComplete
    ensures t.assignedToId == None
    ensures !TaskValid(t)
  {
    Task(0, "", "", false, MinDate, projectId, None)
  }
}
