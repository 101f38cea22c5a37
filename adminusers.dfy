/**
 * The user-administration page (`src/app/admin/users/page.tsx`): the list
 * operations behind delete, edit and create, the page's form state, and the
 * admin-only gate.
 */
module AdminUsers {
  import opened Wrappers
  import Auth
  import Users
  import UserForm
  import Seqs

  /** `users.filter(user => user.id !== userId)`: every copy of a user with another id, and no user with that id. */
  function DeleteById(users: seq<Users.User>, userId: string): (r: seq<Users.User>)
    ensures forall u :: multiset(r)[u] == if u.id != userId then multiset(users)[u] else 0
  {
    Seqs.FilterCounts(users, (u: Users.User) => u.id != userId);
    Seqs.Filter(users, (u: Users.User) => u.id != userId)
  }

  /** Deleting keeps exactly the users with another id, in their original order. */
  lemma DeleteByIdSpec(users: seq<Users.User>, userId: string)
    ensures Seqs.IsSubseq(DeleteById(users, userId), users)
    ensures forall u :: u in DeleteById(users, userId) <==> u in users && u.id != userId
  {
    Seqs.FilterIsSubseq(users, (u: Users.User) => u.id != userId);
    forall u ensures u in DeleteById(users, userId) <==> u in users && u.id != userId {
      Seqs.FilterMembership(users, (x: Users.User) => x.id != userId, u);
    }
  }

  /** `{ ...user, ...data }`: the submitted fields overwrite, id and last login are kept. */
  function MergeSubmitted(u: Users.User, data: UserForm.FormValues): (r: Users.User)
    ensures r.id == u.id && r.lastLogin == u.lastLogin
    ensures r.name == data.name && r.email == data.email && r.role == data.role && r.isActive == data.isActive
    ensures r.sendInvite == Some(data.sendInvite) && r.password == data.password
  {
    u.(name := data.name, email := data.email, role := data.role, isActive := data.isActive,
       sendInvite := Some(data.sendInvite), password := data.password)
  }

  /** `users.map(user => user.id === id ? { ...user, ...data } : user)`. */
  function UpdateById(users: seq<Users.User>, id: string, data: UserForm.FormValues): (r: seq<Users.User>)
    ensures |r| == |users|
    ensures forall i :: 0 <= i < |users| ==>
              r[i] == if users[i].id == id then MergeSubmitted(users[i], data) else users[i]
  {
    if users == [] then []
    else [if users[0].id == id then MergeSubmitted(users[0], data) else users[0]] + UpdateById(users[1..], id, data)
  }

  /** An update changes no id, and leaves the list as it was when no user has that id. */
  lemma UpdateByIdKeepsIds(users: seq<Users.User>, id: string, data: UserForm.FormValues)
    ensures forall i :: 0 <= i < |users| ==> UpdateById(users, id, data)[i].id == users[i].id
    ensures (forall i :: 0 <= i < |users| ==> users[i].id != id) ==> UpdateById(users, id, data) == users
  {
  }

  /** The record a create submission adds: a fresh id, the submitted fields, never logged in. */
  function NewUser(freshId: string, data: UserForm.FormValues): (u: Users.User)
    ensures u.id == freshId && u.lastLogin == None
    ensures u.name == data.name && u.email == data.email && u.role == data.role && u.isActive == data.isActive
  {
    Users.User(freshId, data.name, data.email, data.role, data.isActive, None,
               Some(data.sendInvite), data.password)
  }

  /** `canManageUsers`: the signed-in user's role is exactly "admin". */
  function CanManageUsers(current: Option<Auth.User>): (r: bool)
    ensures r <==> current.Some? && current.value.role == Auth.Admin
  {
    current.Some? && Auth.RoleName(current.value.role) == "admin"
  }

  /**
   * In every state the store can reach, the page's role check agrees with the
   * sidebar's check of the "admin" permission.
   */
  lemma GateAgreesWithAdminPermission(s: Auth.AuthState)
    requires Auth.Consistent(s)
    ensures CanManageUsers(s.user) <==> Auth.PermissionGranted(s, "admin")
  {
  }

  datatype PageView = ManagementView | AccessDenied

  /** Which view the page renders. */
  function View(current: Option<Auth.User>): (v: PageView)
    ensures v == ManagementView <==> CanManageUsers(current)
  {
    if CanManageUsers(current) then ManagementView else AccessDenied
  }

  /** The page's state: the list, the loading flag, and the form dialog with the user being edited. */
  class UsersPage {
    var users: seq<Users.User>
    var isLoading: bool
    var isFormOpen: bool
    var currentUser: Option<Users.User>
    var isSubmitting: bool

    constructor ()
      ensures users == [] && isLoading && !isFormOpen && currentUser == None && !isSubmitting
    {
      users := [];
      isLoading := true;
      isFormOpen := false;
      currentUser := None;
      isSubmitting := false;
    }

    /** The loading effect: store the list it was given and stop loading. */
    method LoadUsers(loaded: seq<Users.User>)
      modifies this
      ensures users == loaded && !isLoading
      ensures isFormOpen == old(isFormOpen) && currentUser == old(currentUser) && isSubmitting == old(isSubmitting)
    {
      users := loaded;
      isLoading := false;
    }

    /** `handleEdit(user)`: remember the user and open the form. */
    method HandleEdit(user: Users.User)
      modifies this
      ensures currentUser == Some(user) && isFormOpen
      ensures users == old(users) && isSubmitting == old(isSubmitting) && isLoading == old(isLoading)
    {
      currentUser := Some(user);
      isFormOpen := true;
    }

    /** `handleDelete(userId)`. */
    method HandleDelete(userId: string)
      modifies this
      ensures users == DeleteById(old(users), userId)
      ensures isFormOpen == old(isFormOpen) && currentUser == old(currentUser)
      ensures isSubmitting == old(isSubmitting) && isLoading == old(isLoading)
    {
      users := DeleteById(users, userId);
    }

    /**
     * `handleSubmit(data)`: update the user being edited, or append a new one
     * with `freshId`; then close the form and forget the edited user.
     */
    method HandleSubmit(data: UserForm.FormValues, freshId: string)
      modifies this
      ensures old(currentUser).Some? ==> users == UpdateById(old(users), old(currentUser).value.id, data)
      ensures old(currentUser).None? ==> users == old(users) + [NewUser(freshId, data)]
      ensures !isFormOpen && currentUser == None && !isSubmitting
      ensures isLoading == old(isLoading)
    {
      isSubmitting := true;
      if currentUser.Some? {
        users := UpdateById(users, currentUser.value.id, data);
      } else {
        users := users + [NewUser(freshId, data)];
      }
      isFormOpen := false;
      currentUser := None;
      isSubmitting := false;
    }

    /** `handleCancel`: close the form and forget the edited user. */
    method HandleCancel()
      modifies this
      ensures !isFormOpen && currentUser == None
      ensures users == old(users) && isSubmitting == old(isSubmitting) && isLoading == old(isLoading)
    {
      isFormOpen := false;
      currentUser := None;
    }

    /** The "Novo Usuário" button and the list's invite action: open the form for a new user. */
    method OpenForNewUser()
      modifies this
      ensures isFormOpen && currentUser == None
      ensures users == old(users) && isSubmitting == old(isSubmitting) && isLoading == old(isLoading)
    {
      currentUser := None;
      isFormOpen := true;
    }
  }

  /** After opening the form for a new user, a submission appends exactly one user and changes no other. */
  method NewUserThenSubmit(page: UsersPage, data: UserForm.FormValues, freshId: string)
    modifies page
    ensures page.users == old(page.users) + [NewUser(freshId, data)]
    ensures !page.isFormOpen && page.currentUser == None
  {
    page.OpenForNewUser();
    page.HandleSubmit(data, freshId);
  }
}
