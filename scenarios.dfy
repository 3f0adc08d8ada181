/** Sequences of actions on one database, checked against the controllers' contracts only. */
module Scenarios {
  import opened Annotations
  import opened Models
  import opened Referential
  import opened Services
  import opened Authorization
  import opened ActionResults
  import opened Projects
  import opened Tasks

  /** Once a project is deleted, listing its tasks answers NotFound, and no task refers
      to it any more. */
  method DeleteThenList(pc: ProjectsController, tc: TasksController, id: int, current: Option<User>)
    returns (deleted: Outcome, listed: Outcome)
    requires pc.context == tc.context && pc.context.Valid()
    requires id in pc.context.projects && IsLeadOrOwner(current, pc.context.projects[id])
    modifies pc.context
    ensures deleted == Ok
    ensures listed == (if current.Some? then NotFound else Unauthorized)
    ensures forall t :: t in pc.context.tasks ==> pc.context.tasks[t].projectId != id
  {
    deleted := pc.DeleteConfirmed(id, current, true);
    CascadeRemovesExactly(old(pc.context.tasks), id);
    var list;
    listed, list := tc.Index(id, current);
  }

  /** Toggling a task twice gives back the task table it started from. */
  method ToggleTwice(tc: TasksController, id: int, current: Option<User>) returns (first: Outcome, second: Outcome)
    requires tc.context.Valid() && current.Some? && id in tc.context.tasks
    modifies tc.context
    ensures first == Ok && second == Ok
    ensures tc.context.tasks == old(tc.context.tasks)
  {
    first := tc.ToggleComplete(id, current, true);
    ToggledTwice(old(tc.context.tasks), id);
    second := tc.ToggleComplete(id, current, true);
  }

  /** The owner of a project who is neither Manager nor TeamLeader may open its edit form
      but may not save it, and the stored project stays as it was. */
  method OwnerOpensButCannotSave(pc: ProjectsController, id: int, owner: User, saveOk: bool)
    returns (shown: Outcome, saved: Outcome)
    requires pc.context.Valid() && id in pc.context.projects
    requires pc.context.projects[id].ownerId == owner.id
    requires owner.role != Manager && owner.role != TeamLeader
    modifies pc.context
    ensures shown == Ok && saved == Unauthorized
    ensures pc.context.projects == old(pc.context.projects)
  {
    var form;
    shown, form := pc.EditForm(id, Some(owner));
    saved := pc.Edit(id, Some(owner), form.value, saveOk);
  }

  /** A Manager creates a project and a task in it assigned to a Contributor; the
      Contributor may neither create a project nor open it for editing, but may toggle
      the task. */
  method ManagerAndContributor() returns (bobCreate: Outcome, aliceCreate: Outcome, taskCreate: Outcome,
                                          bobEdit: Outcome, bobToggle: Outcome)
    ensures bobCreate == Unauthorized && aliceCreate == Ok && taskCreate == Ok
    ensures bobEdit == Unauthorized && bobToggle == Ok
  {
    var alice := User(1, "Alice", "A", "alice@example.com", DefaultPassword, "Manager");
    var bob := User(2, "Bob", "B", "bob@example.com", DefaultPassword, "Contributor");
    var db := new ApplicationDbContext(map[1 := alice, 2 := bob]);
    var pc := new ProjectsController(db);
    var tc := new TasksController(db);

    var launch := Project(0, "Launch", "Q1 launch", 2, None);
    assert ProjectValid(launch) by {
      assert !IsWhiteSpace(launch.name[0]) && !IsWhiteSpace(launch.description[0]);
    }
    bobCreate := pc.Create(pc.GetCurrentUser(Some(2)), launch, true);
    var aliceSeen := pc.GetCurrentUser(Some(1));
    assert aliceSeen == Some(alice) && IsLead(aliceSeen);
    assert ProjectRefsExist(db.users, launch.(ownerId := 1));
    aliceCreate := pc.Create(aliceSeen, launch, true);
    assert db.projects[1].ownerId == 1;

    var draft := Task(0, "Draft spec", "First draft", false, DateTime(0), 1, Some(2));
    assert TaskValid(draft) by {
      assert !IsWhiteSpace(draft.title[0]) && !IsWhiteSpace(draft.description[0]);
      assert |draft.title| == 10 && |draft.description| == 11;
    }
    assert TaskRefsExist(db.users, db.projects, draft);
    taskCreate := tc.Create(draft, Some(alice), true);

    var form;
    bobEdit, form := pc.EditForm(1, pc.GetCurrentUser(Some(2)));
    bobToggle := tc.ToggleComplete(1, Some(bob), true);
  }
}
