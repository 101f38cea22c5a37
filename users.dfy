/**
 * The user records of the administration panel and the list component that
 * shows them (`src/components/auth/UserList.tsx`): the search filter its
 * effect stores, the role and status labels, the delete confirmation and the
 * empty-table row.
 */
module Users {
  import opened Wrappers
  import Text
  import Seqs

  /** The panel's own role enumeration: `admin | manager | authorizer | operator`. */
  datatype AdminRole = Admin | Manager | Authorizer | Operator

  function RoleName(r: AdminRole): string {
    match r
    case Admin => "admin"
    case Manager => "manager"
    case Authorizer => "authorizer"
    case Operator => "operator"
  }

  /**
   * A user as the panel stores it. `sendInvite` and `password` are present
   * once a form submission has been spread into the record, absent otherwise.
   */
  datatype User = User(
    id: string,
    name: string,
    email: string,
    role: AdminRole,
    isActive: bool,
    lastLogin: Option<string>,
    sendInvite: Option<bool>,
    password: Option<string>)

  /** The callback of the list's `filter`: name, email or role contains the term, ignoring case. */
  predicate UserMatches(u: User, term: string) {
    Text.Includes(Text.Lower(u.name), Text.Lower(term)) ||
    Text.Includes(Text.Lower(u.email), Text.Lower(term)) ||
    Text.Includes(Text.Lower(RoleName(u.role)), Text.Lower(term))
  }

  /** The list the effect stores in `filteredUsers`: every copy of a matching user, and nothing else. */
  function FilterUsers(users: seq<User>, term: string): (r: seq<User>)
    ensures forall u :: multiset(r)[u] == if UserMatches(u, term) then multiset(users)[u] else 0
  {
    Seqs.FilterCounts(users, u => UserMatches(u, term));
    Seqs.Filter(users, u => UserMatches(u, term))
  }

  /** A user is listed iff it is among `users` and matches the term; the list keeps their order. */
  lemma FilterUsersSpec(users: seq<User>, term: string)
    ensures forall u :: u in FilterUsers(users, term) <==> u in users && UserMatches(u, term)
    ensures Seqs.IsSubseq(FilterUsers(users, term), users)
  {
    forall u ensures u in FilterUsers(users, term) <==> u in users && UserMatches(u, term) {
      Seqs.FilterMembership(users, x => UserMatches(x, term), u);
    }
    Seqs.FilterIsSubseq(users, x => UserMatches(x, term));
  }

  /** An empty search box lists every user. */
  lemma EmptyTermListsAll(users: seq<User>)
    ensures FilterUsers(users, "") == users
  {
    forall i | 0 <= i < |users| ensures UserMatches(users[i], "") {
      assert Text.Includes(Text.Lower(users[i].name), Text.Lower(""));
    }
    Seqs.FilterKeepsAll(users, u => UserMatches(u, ""));
  }

  /** The label shown for a role name; every name outside the first three reads "Operador". */
  function RoleLabel(roleName: string): (text: string)
    ensures text == "Administrador" <==> roleName == "admin"
    ensures text == "Gestor" <==> roleName == "manager"
    ensures text == "Autorizador" <==> roleName == "authorizer"
    ensures text == "Operador" <==> roleName !in {"admin", "manager", "authorizer"}
  {
    if roleName == "admin" then "Administrador"
    else if roleName == "manager" then "Gestor"
    else if roleName == "authorizer" then "Autorizador"
    else "Operador"
  }

  /** Different roles of the panel get different labels. */
  lemma RoleLabelDistinguishesRoles(r1: AdminRole, r2: AdminRole)
    requires r1 != r2
    ensures RoleLabel(RoleName(r1)) != RoleLabel(RoleName(r2))
  {
  }

  /** The status column. */
  function StatusLabel(isActive: bool): (text: string)
    ensures text == "Ativo" <==> isActive
    ensures text == "Inativo" <==> !isActive
  {
    if isActive then "Ativo" else "Inativo"
  }

  /** `handleDelete`: the id handed to `onDelete`, only when the confirmation dialog says yes. */
  function DeleteRequest(confirmed: bool, userId: string): (r: Option<string>)
    ensures r.Some? <==> confirmed
    ensures r.Some? ==> r.value == userId
  {
    if confirmed then Some(userId) else None
  }

  /** What the table body shows. */
  datatype TableBody = NoUsersRow | Rows(users: seq<User>)

  /** The body: the single "Nenhum usuário encontrado" row when nothing is listed, otherwise one row per user. */
  function Body(filtered: seq<User>): (b: TableBody)
    ensures b == NoUsersRow <==> filtered == []
    ensures b.Rows? ==> b.users == filtered
  {
    if |filtered| > 0 then Rows(filtered) else NoUsersRow
  }

  /**
   * The component's state: the `users` prop, the search box, and the list the
   * effect computed. Every change of `users` or `searchTerm` reruns the effect.
   */
  class UserListView {
    var users: seq<User>
    var searchTerm: string
    var filteredUsers: seq<User>

    ghost predicate Valid()
      reads this
    {
      filteredUsers == FilterUsers(users, searchTerm)
    }

    /** The first render: `filteredUsers` starts as `users` and the search box is empty. */
    constructor (users: seq<User>)
      ensures Valid()
      ensures this.users == users && searchTerm == "" && filteredUsers == users
    {
      this.users := users;
      searchTerm := "";
      filteredUsers := users;
      EmptyTermListsAll(users);
    }

    /** Typing in the search box, then the effect. */
    method SetSearchTerm(term: string)
      modifies this
      ensures Valid()
      ensures searchTerm == term && users == old(users)
    {
      searchTerm := term;
      filteredUsers := FilterUsers(users, searchTerm);
    }

    /** A new `users` prop, then the effect. */
    method SetUsers(newUsers: seq<User>)
      modifies this
      ensures Valid()
      ensures users == newUsers && searchTerm == old(searchTerm)
    {
      users := newUsers;
      filteredUsers := FilterUsers(users, searchTerm);
    }
  }
}
