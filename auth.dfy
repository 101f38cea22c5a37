/**
 * The client-side session store of `src/services/auth.ts`: one module-level
 * record (`isAuthenticated`, `user`, `loading`) changed only through a
 * merge-and-notify step, a set of listeners that see every change, the mock
 * sign-in and sign-out, and the role table behind `hasPermission`.
 */
module Auth {
  import opened Wrappers
  import Seqs

  /** The role enumeration of this module: `'requester' | 'approver' | 'admin'`. */
  datatype Role = Requester | Approver | Admin

  /** The string a role is compared as. */
  function RoleName(r: Role): string {
    match r
    case Requester => "requester"
    case Approver => "approver"
    case Admin => "admin"
  }

  datatype User = User(id: string, email: string, name: string, role: Role, avatar: Option<string>)

  datatype AuthState = AuthState(isAuthenticated: bool, user: Option<User>, loading: bool)

  /** A `Partial<AuthState>`: each field is either supplied (`Some`) or left out (`None`). */
  datatype Patch = Patch(isAuthenticated: Option<bool>, user: Option<Option<User>>, loading: Option<bool>)

  /** The value of the module-level record when the page loads: logged out, not loading. */
  const InitialState := AuthState(false, None, false)

  /** The fixed accounts sign-in looks an email up in. */
  const MockUsers: seq<User> := [
    User("1", "admin@example.com", "Admin User", Admin,
         Some("https://ui-avatars.com/api/?name=Admin+User&background=0D8ABC&color=fff")),
    User("2", "approver@example.com", "Approver User", Approver,
         Some("https://ui-avatars.com/api/?name=Approver+User&background=7988EC&color=fff")),
    User("3", "requester@example.com", "Requester User", Requester,
         Some("https://ui-avatars.com/api/?name=Requester+User&background=13CE66&color=fff"))
  ]

  /** The one password every mock account accepts. */
  const MockPassword := "password"
  const InvalidCredentials := "Invalid email or password"
  const SignInError := "An error occurred during sign in"

  /** `{ ...s, ...p }`: supplied fields overwrite, the others are kept. */
  function Merge(s: AuthState, p: Patch): (r: AuthState)
    ensures r.isAuthenticated == if p.isAuthenticated.Some? then p.isAuthenticated.value else s.isAuthenticated
    ensures r.user == if p.user.Some? then p.user.value else s.user
    ensures r.loading == if p.loading.Some? then p.loading.value else s.loading
  {
    AuthState(p.isAuthenticated.GetOr(s.isAuthenticated), p.user.GetOr(s.user), p.loading.GetOr(s.loading))
  }

  /** An update that supplies nothing changes nothing. */
  lemma MergeEmpty(s: AuthState)
    ensures Merge(s, Patch(None, None, None)) == s
  {
  }

  /** Applying the same update twice is applying it once. */
  lemma MergeIdempotent(s: AuthState, p: Patch)
    ensures Merge(Merge(s, p), p) == Merge(s, p)
  {
  }

  function LoadingPatch(b: bool): Patch {
    Patch(None, None, Some(b))
  }

  function SignedInPatch(u: User): Patch {
    Patch(Some(true), Some(Some(u)), Some(false))
  }

  const SignedOutPatch := Patch(Some(false), Some(None), Some(false))

  /** `users.find(u => u.email === email)`: the first account with exactly that email. */
  function FindByEmail(users: seq<User>, email: string): (r: Option<User>)
    ensures r.None? <==> forall i :: 0 <= i < |users| ==> users[i].email != email
    ensures r.Some? ==> exists i :: 0 <= i < |users| && users[i] == r.value
                          && r.value.email == email
                          && forall j :: 0 <= j < i ==> users[j].email != email
  {
    if users == [] then None
    else if users[0].email == email then Some(users[0])
    else
      var r := FindByEmail(users[1..], email);
      if r.Some? then
        var k :| 0 <= k < |users[1..]| && users[1..][k] == r.value && r.value.email == email
                 && forall j :: 0 <= j < k ==> users[1..][j].email != email;
        assert users[k + 1] == r.value;
        r
      else r
  }

  /**
   * The role table of `hasPermission`, on the role's NAME: admin gets every
   * permission, approver gets "approve" and "request", requester gets
   * "request", and any other name (the admin panel's manager, authorizer or
   * operator included) gets nothing.
   */
  function Grants(roleName: string, permission: string): (r: bool)
    ensures roleName !in {"admin", "approver", "requester"} ==> !r
    ensures permission !in {"approve", "request"} ==> (r <==> roleName == "admin")
  {
    if roleName == "admin" then true
    else if roleName == "approver" && permission in ["approve", "request"] then true
    else if roleName == "requester" && permission == "request" then true
    else false
  }

  /** `hasPermission(permission)` evaluated on a snapshot of the state. */
  function PermissionGranted(s: AuthState, permission: string): (r: bool)
    ensures r <==> s.isAuthenticated && s.user.Some? &&
                   match s.user.value.role
                   case Admin => true
                   case Approver => permission == "approve" || permission == "request"
                   case Requester => permission == "request"
  {
    if !s.isAuthenticated || s.user.None? then false
    else Grants(RoleName(s.user.value.role), permission)
  }

  /** How far up the role hierarchy a role sits. */
  function Rank(r: Role): nat {
    match r
    case Requester => 0
    case Approver => 1
    case Admin => 2
  }

  /** A signed-in user is granted everything a user of a lower role would be. */
  lemma PermissionMonotoneInRole(s: AuthState, u: User, permission: string)
    requires s.isAuthenticated && s.user.Some? && Rank(s.user.value.role) <= Rank(u.role)
    requires PermissionGranted(s, permission)
    ensures PermissionGranted(s.(user := Some(u)), permission)
  {
  }

  /** None of the admin panel's own role names is granted anything. */
  lemma AdminPanelRolesGetNothing(permission: string)
    ensures !Grants("manager", permission)
    ensures !Grants("authorizer", permission)
    ensures !Grants("operator", permission)
  {
  }

  /** The store's invariant: a session is authenticated exactly when it has a user, and that user is a mock account. */
  predicate Consistent(s: AuthState) {
    (s.isAuthenticated <==> s.user.Some?) && (s.user.Some? ==> s.user.value in MockUsers)
  }

  datatype SignInResult = SignInResult(success: bool, error: Option<string>)

  /** The first step of sign-in and sign-out: `updateState({ loading: true })`. */
  function Loading(s: AuthState): AuthState {
    Merge(s, LoadingPatch(true))
  }

  /** What `signIn(email, password)` returns; `interrupted` stands for an exception during the wait. */
  function SignInResultFor(email: string, password: string, interrupted: bool): (r: SignInResult)
    ensures r.success <==> !interrupted && password == MockPassword
                           && exists i :: 0 <= i < |MockUsers| && MockUsers[i].email == email
    ensures r.success ==> r.error == None
    ensures !r.success ==> r.error == Some(if interrupted then SignInError else InvalidCredentials)
  {
    if interrupted then SignInResult(false, Some(SignInError))
    else if FindByEmail(MockUsers, email).Some? && password == MockPassword then SignInResult(true, None)
    else SignInResult(false, Some(InvalidCredentials))
  }

  /** The state `signIn` leaves behind. */
  function AfterSignIn(s: AuthState, email: string, password: string, interrupted: bool): (t: AuthState)
    ensures !t.loading
    ensures SignInResultFor(email, password, interrupted).success ==>
              t.isAuthenticated && t.user.Some? && t.user.value in MockUsers && t.user.value.email == email
    ensures !SignInResultFor(email, password, interrupted).success ==>
              t == s.(loading := false)
  {
    var l := Loading(s);
    if interrupted then Merge(l, LoadingPatch(false))
    else
      var u := FindByEmail(MockUsers, email);
      if u.Some? && password == MockPassword then Merge(l, SignedInPatch(u.value))
      else Merge(l, LoadingPatch(false))
  }

  /** The state `signOut` leaves behind; `interrupted` stands for an exception during the wait. */
  function AfterSignOut(s: AuthState, interrupted: bool): (t: AuthState)
    ensures !interrupted ==> t == AuthState(false, None, false)
    ensures interrupted ==> t == s.(loading := false)
  {
    var l := Loading(s);
    if interrupted then Merge(l, LoadingPatch(false)) else Merge(l, SignedOutPatch)
  }

  /** A completed sign-out ends in the same state whatever came before, so doing it twice is doing it once. */
  lemma SignOutIdempotent(s: AuthState)
    ensures AfterSignOut(AfterSignOut(s, false), false) == AfterSignOut(s, false)
  {
  }

  /** Every transition keeps the invariant, starting from the initial state. */
  lemma TransitionsKeepConsistent(s: AuthState, email: string, password: string, interrupted: bool)
    requires Consistent(s)
    ensures Consistent(InitialState)
    ensures Consistent(Loading(s))
    ensures Consistent(AfterSignIn(s, email, password, interrupted))
    ensures Consistent(AfterSignOut(s, interrupted))
  {
  }

  /** A callback, named by an id; two subscriptions of the same callback share an id. */
  type ListenerId = nat

  /** One call `listener(state)`. */
  datatype Delivery = Delivery(listener: ListenerId, state: AuthState)

  /** `listeners.forEach(l => l(s))`: one call per listener, in order, all with `s`. */
  function Broadcast(ls: seq<ListenerId>, s: AuthState): (r: seq<Delivery>)
    ensures |r| == |ls|
    ensures forall i :: 0 <= i < |ls| ==> r[i] == Delivery(ls[i], s)
  {
    if ls == [] then [] else [Delivery(ls[0], s)] + Broadcast(ls[1..], s)
  }

  /** A notification calls each registered listener exactly once, and nobody else. */
  lemma {:induction false} BroadcastCallsEachOnce(ls: seq<ListenerId>, s: AuthState, l: ListenerId)
    requires Seqs.NoDuplicates(ls)
    ensures multiset(Broadcast(ls, s))[Delivery(l, s)] == if l in ls then 1 else 0
  {
    if ls != [] {
      BroadcastCallsEachOnce(ls[1..], s, l);
      assert Broadcast(ls, s) == [Delivery(ls[0], s)] + Broadcast(ls[1..], s);
      assert l in ls <==> l == ls[0] || l in ls[1..];
    }
  }

  /** `listeners.add(callback)` on a set kept in insertion order. */
  function Added(ls: seq<ListenerId>, callback: ListenerId): seq<ListenerId> {
    if callback in ls then ls else ls + [callback]
  }

  /** Unsubscribing right after a first subscription gives back the listeners there were before. */
  lemma UnsubscribeUndoesSubscribe(ls: seq<ListenerId>, callback: ListenerId)
    requires callback !in ls
    ensures Seqs.Without(Added(ls, callback), callback) == ls
  {
    Seqs.WithoutAppended(ls, callback);
  }

  /**
   * The store. `state` is the module-level `authState`, `listeners` the
   * `listeners` set, and `outbox` records every listener call made so far.
   */
  class SessionStore {
    var state: AuthState
    var listeners: seq<ListenerId>
    var outbox: seq<Delivery>

    ghost predicate Valid()
      reads this
    {
      Consistent(state) && Seqs.NoDuplicates(listeners)
    }

    constructor ()
      ensures Valid()
      ensures state == InitialState && listeners == [] && outbox == []
    {
      state := InitialState;
      listeners := [];
      outbox := [];
    }

    /** `updateState(patch)`: merge, then call every listener with the new state. */
    method UpdateState(patch: Patch)
      modifies this
      ensures state == Merge(old(state), patch)
      ensures listeners == old(listeners)
      ensures outbox == old(outbox) + Broadcast(listeners, state)
    {
      state := Merge(state, patch);
      var i := 0;
      while i < |listeners|
        invariant 0 <= i <= |listeners|
        invariant state == Merge(old(state), patch) && listeners == old(listeners)
        invariant outbox == old(outbox) + Broadcast(listeners[..i], state)
      {
        assert listeners[..i + 1] == listeners[..i] + [listeners[i]];
        outbox := outbox + [Delivery(listeners[i], state)];
        i := i + 1;
      }
      assert listeners[..i] == listeners;
    }

    /**
     * `subscribe(callback)`: register, replay the current state to the new
     * listener, and hand back what unsubscribes it.
     */
    method Subscribe(callback: ListenerId) returns (unsubscribe: ListenerId)
      requires Valid()
      modifies this
      ensures Valid()
      ensures listeners == Added(old(listeners), callback)
      ensures outbox == old(outbox) + [Delivery(callback, state)]
      ensures state == old(state)
      ensures unsubscribe == callback
    {
      if callback !in listeners {
        Seqs.AppendNoDuplicates(listeners, callback);
        listeners := listeners + [callback];
      }
      outbox := outbox + [Delivery(callback, state)];
      unsubscribe := callback;
    }

    /** The function `subscribe` returns: `listeners.delete(callback)`. */
    method Unsubscribe(callback: ListenerId)
      requires Valid()
      modifies this
      ensures Valid()
      ensures listeners == Seqs.Without(old(listeners), callback)
      ensures state == old(state) && outbox == old(outbox)
    {
      Seqs.WithoutNoDuplicates(listeners, callback);
      listeners := Seqs.Without(listeners, callback);
    }

    /** `getCurrentUser()`. */
    function GetCurrentUser(): (u: Option<User>)
      reads this
      requires Valid()
      ensures u.Some? <==> state.isAuthenticated
      ensures u.Some? ==> u.value in MockUsers
    {
      state.user
    }

    /** `getAuthState()`. */
    function GetAuthState(): (s: AuthState)
      reads this
      requires Valid()
      ensures Consistent(s)
    {
      state
    }

    /**
     * `hasPermission(permission)` on the current state: refused without a
     * session, granted for any permission to an admin.
     */
    function HasPermission(permission: string): (r: bool)
      reads this
      ensures !state.isAuthenticated || state.user.None? ==> !r
      ensures state.isAuthenticated && state.user.Some? && state.user.value.role == Admin ==> r
      ensures r ==> state.user.Some? && Grants(RoleName(state.user.value.role), permission)
    {
      PermissionGranted(state, permission)
    }

    /**
     * `signIn(email, password)`: announce loading, then either sign the
     * matching mock account in or only clear `loading`.
     */
    method SignIn(email: string, password: string, interrupted: bool) returns (r: SignInResult)
      requires Valid()
      modifies this
      ensures Valid()
      ensures r == SignInResultFor(email, password, interrupted)
      ensures state == AfterSignIn(old(state), email, password, interrupted)
      ensures listeners == old(listeners)
      ensures outbox == old(outbox) + Broadcast(listeners, Loading(old(state))) + Broadcast(listeners, state)
    {
      UpdateState(LoadingPatch(true));
      if interrupted {
        UpdateState(LoadingPatch(false));
        return SignInResult(false, Some(SignInError));
      }
      var user := FindByEmail(MockUsers, email);
      if user.Some? && password == MockPassword {
        UpdateState(SignedInPatch(user.value));
        return SignInResult(true, None);
      }
      UpdateState(LoadingPatch(false));
      return SignInResult(false, Some(InvalidCredentials));
    }

    /**
     * `signOut()`: announce loading, then clear the session; when the wait
     * throws, only `loading` is cleared and the error goes back to the caller.
     */
    method SignOut(interrupted: bool) returns (rethrown: bool)
      requires Valid()
      modifies this
      ensures Valid()
      ensures rethrown == interrupted
      ensures state == AfterSignOut(old(state), interrupted)
      ensures listeners == old(listeners)
      ensures outbox == old(outbox) + Broadcast(listeners, Loading(old(state))) + Broadcast(listeners, state)
    {
      UpdateState(LoadingPatch(true));
      if interrupted {
        UpdateState(LoadingPatch(false));
        return true;
      }
      UpdateState(SignedOutPatch);
      return false;
    }
  }
}
