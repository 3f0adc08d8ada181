# TaskManagement: projects, tasks and who may change them

This project models the core of TaskManagement, a small ASP.NET MVC project and task
tracker. Users hold a free-text role ("Manager", "TeamLeader", anything else). Users own
projects. Projects contain tasks. Tasks are assigned to users and can be marked complete.

The model covers the two controllers that change data, `ProjectsController` and
`TasksController`. It also covers the `User` and `Task` models and the `Project` table.
The database is a class, `Services.ApplicationDbContext`. It holds three tables as maps
keyed by id (`users`, `projects`, `tasks`) and the two identity counters that number new
projects and tasks. Each controller is a class holding that context, and each action is a
method on it. Every action except `ProjectsController.Index` takes the signed-in user as an
`Option<User>`, where `None` stands for the null that `GetCurrentUser` returns, and returns
an `Outcome` tag: `Ok`, `NotFound`, `Unauthorized`, `Invalid(reason)` or `ServerError`.
`ProjectsController.Index` is open to anyone: it takes no user and returns only the
listing.

Files:

- `annotations.dfy`: how model validation reads `[Required]`, `[StringLength]` and `[EmailAddress]`.
- `models.dfy`: the records, their defaults and their validity predicates.
- `referential.dfy`: the tables as values and the referential invariant. It also holds the
  queries and the effect of each write as a function, with lemmas about them.
- `context.dfy`: the database context class.
- `authorization.dfy`: the two permission tests.
- `projects.dfy` and `tasks.dfy`: the controllers.
- `scenarios.dfy`: short sequences of actions, checked only through the controllers' contracts.

Invariant kept by every action (`ApplicationDbContext.Valid`):

- every row is stored under its own id;
- every project's owner is a user, and so is its contributor (`UserId`) when it has one;
- every task's project is a project, and its assignee is a user;
- every id lies below its table's identity counter.

Every action also keeps `AllValid`: if every stored row passed model validation before the
action, every row still does after it.

Notes on what the code does:

- Any signed-in user may toggle a task's completion. No role is tested.
- Task listing returns the project's tasks with no ordering and no counts.
- Tasks have no priority, and there is no task edit or task delete.
- Edit (GET) admits the project's owner, but Edit (POST) admits only Managers and TeamLeaders.
  So an owner who is neither can open the edit form but cannot save it.
- Task Create (GET) demands a signed-in user but no role. Task Create (POST) demands Manager or TeamLeader.
- `TasksController` carries `[Authorize]` on the class. So every task action, including
  `ToggleComplete`, answers `Unauthorized` when nobody is signed in.

## Model

| member | source | states |
|---|---|---|
| `Annotations.IndexOf` | TaskManagement/Models/User.cs:17 | the position of the first '@' the e-mail check uses: -1 exactly when there is none, otherwise an '@' with none before it |
| `Annotations.LastIndexOf` | TaskManagement/Models/User.cs:17 | the position of the last '@': -1 exactly when there is none, otherwise an '@' with none after it |
| `Annotations.EmailAddressShape` | TaskManagement/Models/User.cs:16-18 | `[EmailAddress]` accepts a string exactly when it has a single '@' that is neither its first nor its last character |
| `Models.ValidUserFields` | TaskManagement/Models/User.cs:10-24 | a valid user has non-empty first name, last name and role, and an e-mail with non-empty text on both sides of its only '@' |
| `Models.NewUser` | TaskManagement/Models/User.cs:20-21 | a new user's password is "password123", and whether the new user is valid depends only on the names, e-mail and role |
| `Models.NewProject` | TaskManagement/Controllers/ProjectsController.cs:57 | the blank project form has no contributor and does not pass validation |
| `Annotations.Utf16Length` | TaskManagement/Models/Task.cs:12-16 | the length `[StringLength]` compares is at least the number of characters and at most twice it; it equals the character count exactly when no character lies above U+FFFF, and twice it exactly when every character does |
| `Models.ValidTaskFields` | TaskManagement/Models/Task.cs:11-29 | a valid task has a title of 1 to 100 characters, a description of 1 to 500 characters and an assignee; a title made only of characters above U+FFFF holds at most 50 of them |
| `Models.NewTask` | TaskManagement/Models/Task.cs:19 | a new task belongs to the given project, is not complete, has no assignee and does not pass validation |
| `Referential.WithOwnersComplete` | TaskManagement/Controllers/ProjectsController.cs:43 | including each project's owner drops no project, because every owner is a user |
| `Referential.UnknownUserUnrelated` | TaskManagement/Models/User.cs:25-27 | a user not yet in the table owns, contributes to and is assigned nothing, so a new user's three collections start empty |
| `Referential.InsertProjectConsistent` | TaskManagement/Controllers/ProjectsController.cs:82-83 | inserting a project whose owner and contributor exist, under a fresh id, keeps the invariant and adds exactly one row |
| `Referential.InsertTaskConsistent` | TaskManagement/Controllers/TasksController.cs:73-94 | inserting a task whose project and assignee exist, under a fresh id, keeps the invariant, adds one row, and changes only its own project's task list |
| `Referential.RenamedKeepsRest` | TaskManagement/Controllers/ProjectsController.cs:143-155 | overwriting Name and Description keeps the project's id, owner and contributor, leaves every other row alone, and keeps the invariant |
| `Referential.CascadeRemovesExactly` | TaskManagement/Controllers/ProjectsController.cs:231-239 | the cascade removes exactly the tasks of the deleted project, keeps every other task unchanged, and leaves the project with no tasks |
| `Referential.CascadeCount` | TaskManagement/Controllers/ProjectsController.cs:232-236 | the cascade removes as many rows as the project has tasks |
| `Referential.CascadeKeepsOtherProjects` | TaskManagement/Controllers/ProjectsController.cs:215-239 | every other project's task list is the same after the cascade |
| `Referential.CascadeConsistent` | TaskManagement/Controllers/ProjectsController.cs:231-245 | removing a project together with its tasks keeps the invariant |
| `Referential.ToggledTwice` | TaskManagement/Controllers/TasksController.cs:114 | toggling flips one task's completion flag and changes nothing else, and toggling twice restores the table |
| `Referential.ToggledConsistent` | TaskManagement/Controllers/TasksController.cs:114-115 | toggling keeps the invariant and keeps every row valid |
| `Authorization.OwnerWidensLead` | TaskManagement/Controllers/ProjectsController.cs:106 | the owner-or-role test admits exactly the Managers, the TeamLeaders and the project's owner |
| `Projects.ProjectsController.GetCurrentUser` | TaskManagement/Controllers/ProjectsController.cs:15-39 | yields a user exactly when an identifier is present and a user row has it, and then that row, whose id is the identifier |
| `Projects.ProjectsController.ProjectExists` | TaskManagement/Controllers/ProjectsController.cs:181-184 | true exactly when the project table has that id |
| `Projects.ProjectsController.Index` | TaskManagement/Controllers/ProjectsController.cs:41-46 | lists every project, each paired with exactly its owner's user row |
| `Projects.ProjectsController.CreateForm` | TaskManagement/Controllers/ProjectsController.cs:48-59 | the blank form goes only to a signed-in Manager or TeamLeader; everyone else gets Unauthorized |
| `Projects.ProjectsController.Create` | TaskManagement/Controllers/ProjectsController.cs:61-94 | Unauthorized without the role, then Invalid for an invalid project; otherwise Ok exactly when the save succeeds, no Id was submitted and the owner and contributor exist, and ServerError in every other case; on Ok one project is added whose owner is the current user whatever OwnerId was submitted; every failure leaves the tables unchanged |
| `Projects.ProjectsController.EditForm` | TaskManagement/Controllers/ProjectsController.cs:96-113 | NotFound for a missing id, else the project for a Manager, a TeamLeader or the owner, else Unauthorized |
| `Projects.ProjectsController.Edit` | TaskManagement/Controllers/ProjectsController.cs:114-178 | NotFound when the route id and the project id differ; then Unauthorized without the role, even for the owner; then NotFound for a missing project; then Invalid for an invalid form; on success only Name and Description change; every failure leaves the tables unchanged |
| `Projects.ProjectsController.Delete` | TaskManagement/Controllers/ProjectsController.cs:186-208 | NotFound for a missing id, else the confirmation for a Manager, a TeamLeader or the owner, else Unauthorized |
| `Projects.ProjectsController.DeleteConfirmed` | TaskManagement/Controllers/ProjectsController.cs:210-257 | NotFound for a missing id, Unauthorized unless Manager, TeamLeader or owner; on success the project and exactly its tasks are removed; a failed save gives ServerError and changes nothing |
| `Tasks.TasksController.Index` | TaskManagement/Controllers/TasksController.cs:19-32 | Unauthorized when nobody is signed in, NotFound for a missing project, else exactly the tasks whose ProjectId is the given id |
| `Tasks.TasksController.CreateForm` | TaskManagement/Controllers/TasksController.cs:33-54 | NotFound for a missing project, else a blank incomplete task of that project; no role is needed and nothing changes |
| `Tasks.TasksController.Create` | TaskManagement/Controllers/TasksController.cs:55-102 | Unauthorized without the role; then an invalid task, an unknown project and an unknown assignee are refused in that order; then Ok exactly when the save succeeds and no Id was submitted, else the save error on the form; on success exactly one task is added, with existing project and assignee; every refusal leaves the tables unchanged |
| `Tasks.TasksController.ToggleComplete` | TaskManagement/Controllers/TasksController.cs:106-117 | any signed-in user flips one existing task's completion and nothing else; NotFound for a missing id |
| `Scenarios.DeleteThenList` | TaskManagement/Controllers/ProjectsController.cs:213-256 | after a project is deleted, listing its tasks answers NotFound and no task refers to it |
| `Scenarios.ToggleTwice` | TaskManagement/Controllers/TasksController.cs:106-117 | two toggles of one task give back the original task table |
| `Scenarios.OwnerOpensButCannotSave` | TaskManagement/Controllers/ProjectsController.cs:106-126 | an owner who is neither Manager nor TeamLeader gets the edit form but Unauthorized on saving it, and the project is unchanged |
| `Scenarios.ManagerAndContributor` | TaskManagement/Controllers/ProjectsController.cs:62-84 | a Contributor cannot create a project but a Manager can; the Manager becomes its owner though the form named another user; the Contributor cannot open it for editing but can toggle its task |

## Left out

- AccountController (cookie sign-in and sign-out) is not part of this model. Its only output, the signed-in user, is the `current` parameter of every action.
- `GetCurrentUser` reads the identifier claim and parses it with `int.Parse`. The model takes the claim as an optional integer, so a non-numeric claim, which throws, is not modelled.
- The role that `[Authorize(Roles = ...)]` tests comes from the sign-in claims. The model uses the stored role of the signed-in user instead.
- The `DbUpdateConcurrencyException` path of Edit (POST) only arises under concurrent requests. It is not modelled: requests run one at a time.
- The antiforgery-token checks on Edit (POST) and DeleteConfirmed are not modelled.
- Views, `ViewBag`, the users drop-down, redirect targets and console logging are not modelled. They carry no state.
- `DueDate` is an opaque value. Date arithmetic and time zones play no part.
- Whether the database accepts a save is an input, `saveOk`. It stands for failures the code cannot see. On top of that, the model lets the database refuse a new row that brings a non-zero Id (the identity columns take no explicit value) and a new project whose owner or contributor does not exist.
- `Annotations.IsWhiteSpace` covers only the white-space characters below U+0100. The other Unicode space separators that `[Required]` also rejects are not modelled.
- The model validates only the properties that carry annotations. It does not treat non-nullable reference properties (`Task.Project`, `Task.AssignedTo`) as implicitly required: the project settings that would decide this are not part of this model.
- The `Project` model class is not part of this model. Its columns come from the schema. A submitted project is valid when Name and Description pass `[Required]`.
- A failed insert does not advance the identity counters in the model. The real database may skip those numbers.
