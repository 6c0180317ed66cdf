/**
 * The permission rule of the client: a user manages a project exactly when the
 * project's manager id is the user's id. The project page derives `canEdit` from
 * the same comparison, through optional chaining over the possibly absent
 * project and user.
 */
module Policies {
  import opened Wrappers
  import opened Types

  /** `isManager(managerId, userId)`. */
  function IsManager(managerId: string, userId: string): bool
  {
    managerId == userId
  }

  /** The rule holds exactly for equal ids. */
  lemma IsManagerIffSameId(managerId: string, userId: string)
    ensures IsManager(managerId, userId) <==> managerId == userId
  {
  }

  /** Every user manages a project whose manager id is their own. */
  lemma IsManagerReflexive(id: string)
    ensures IsManager(id, id)
  {
  }

  /** The rule does not depend on which argument is the manager. */
  lemma IsManagerSymmetric(a: string, b: string)
    ensures IsManager(a, b) == IsManager(b, a)
  {
  }

  /** `data?.manager` and `user?._id`: absent when the object is absent. */
  function ManagerOf(data: Option<Project>): Option<string>
  {
    if data.Some? then Some(data.value.manager) else None
  }

  function IdOf(user: Option<User>): Option<string>
  {
    if user.Some? then Some(user.value.id) else None
  }

  /** `canEdit = data?.manager === user?._id`, with `undefined === undefined` being true. */
  function CanEdit(data: Option<Project>, user: Option<User>): (r: bool)
    ensures data.Some? && user.Some? ==> (r <==> IsManager(data.value.manager, user.value.id))
    ensures data.Some? != user.Some? ==> !r
  {
    ManagerOf(data) == IdOf(user)
  }

  /**
   * Once the project and the user are loaded, `canEdit` and the manager-only menu
   * are gated by the same rule; with both absent, optional chaining makes
   * `canEdit` true, a case the page never renders because it returns early.
   */
  lemma CanEditMatchesMenu(p: Project, u: User)
    ensures CanEdit(Some(p), Some(u)) == IsManager(p.manager, u.id)
    ensures CanEdit(None, None)
  {
  }
}
