/** The two permission tests the controllers apply to the signed-in user. Roles are free
    text, compared exactly (case-sensitive) with "Manager" and "TeamLeader". */
module Authorization {
  import opened Models

  const Manager := "Manager"
  const TeamLeader := "TeamLeader"

  /** A user is signed in and holds the role Manager or TeamLeader. */
  predicate IsLead(current: Option<User>) {
    current.Some? && (current.value.role == Manager || current.value.role == TeamLeader)
  }

  /** A user is signed in and is a Manager, a TeamLeader or the owner of `project`. */
  predicate IsLeadOrOwner(current: Option<User>, project: Project) {
    current.Some?
    && (current.value.role == Manager || current.value.role == TeamLeader
        || project.ownerId == current.value.id)
  }

  /** The owner test widens the role test by exactly the project's owner. */
  lemma OwnerWidensLead(current: Option<User>, project: Project)
    ensures IsLeadOrOwner(current, project)
        <==> IsLead(current) || (current.Some? && project.ownerId == current.value.id)
  {
  }
}
