/**
 * The page frame of `src/components/layout/Layout.tsx`: it subscribes to the
 * session store, sends a logged-out visitor of a protected page back to "/",
 * shows a placeholder until the first notification, and owns the sidebar's
 * open flag.
 */
module Layout {
  import Auth
  import Seqs

  /**
   * The subscription callback's guard: a protected page, a session that is
   * neither signed in nor loading. A redirected visitor holds no permission.
   */
  function ShouldRedirect(requireAuth: bool, s: Auth.AuthState): (r: bool)
    ensures r <==> requireAuth && !s.isAuthenticated && !s.loading
    ensures r ==> forall p :: !Auth.PermissionGranted(s, p)
  {
    requireAuth && !s.isAuthenticated && !s.loading
  }

  /** The "loading" notification that starts every sign-in and sign-out never redirects. */
  lemma LoadingNeverRedirects(requireAuth: bool, s: Auth.AuthState)
    ensures !ShouldRedirect(requireAuth, Auth.Loading(s))
  {
  }

  /** A completed sign-out sends a protected page back to "/"; one that threw does so only if nobody was signed in. */
  lemma SignOutRedirects(s: Auth.AuthState, interrupted: bool)
    requires Auth.Consistent(s)
    ensures ShouldRedirect(true, Auth.AfterSignOut(s, interrupted)) <==> !interrupted || !s.isAuthenticated
  {
  }

  /**
   * After a sign-in attempt a protected page redirects exactly when the
   * attempt failed and nobody was signed in before: a failed attempt keeps
   * the earlier session.
   */
  lemma SignInRedirects(s: Auth.AuthState, email: string, password: string, interrupted: bool)
    requires Auth.Consistent(s)
    ensures ShouldRedirect(true, Auth.AfterSignIn(s, email, password, interrupted)) <==>
              !Auth.SignInResultFor(email, password, interrupted).success && !s.isAuthenticated
  {
  }

  /** An unprotected page never redirects. */
  lemma UnprotectedNeverRedirects(s: Auth.AuthState)
    ensures !ShouldRedirect(false, s)
  {
  }

  /**
   * The component's state: the `requireAuth` prop, whether a notification
   * has arrived, the sidebar's open flag, and the routes navigated to.
   */
  class LayoutView {
    const requireAuth: bool
    var authChecked: bool
    var isSidebarOpen: bool
    var navigations: seq<string>

    /** The first render: nothing checked yet, the sidebar closed; the prop defaults to a protected page. */
    constructor (requireAuth: bool := true)
      ensures this.requireAuth == requireAuth
      ensures !authChecked && !isSidebarOpen && navigations == []
    {
      this.requireAuth := requireAuth;
      authChecked := false;
      isSidebarOpen := false;
      navigations := [];
    }

    /** The "Loading..." placeholder is rendered instead of the page. */
    function ShowsPlaceholder(): (b: bool)
      reads this
      ensures b <==> requireAuth && !authChecked
    {
      requireAuth && !authChecked
    }

    /** The sidebar is rendered: a protected page past the placeholder. */
    function ShowsSidebar(): (b: bool)
      reads this
      ensures b ==> !ShowsPlaceholder()
      ensures b <==> requireAuth && authChecked
    {
      !ShowsPlaceholder() && requireAuth
    }

    /** The subscription callback: mark the check done and redirect when the guard holds. */
    method OnAuthState(s: Auth.AuthState)
      modifies this
      ensures authChecked && isSidebarOpen == old(isSidebarOpen)
      ensures navigations == old(navigations) + if ShouldRedirect(requireAuth, s) then ["/"] else []
    {
      authChecked := true;
      if requireAuth && !s.isAuthenticated && !s.loading {
        navigations := navigations + ["/"];
      }
    }

    /**
     * The effect: subscribe `callback` to the store. The store replays its
     * state at once, so the placeholder is gone when the effect returns.
     */
    method Mount(store: Auth.SessionStore, callback: Auth.ListenerId) returns (unsubscribe: Auth.ListenerId)
      requires store.Valid()
      modifies this, store
      ensures store.Valid()
      ensures store.listeners == Auth.Added(old(store.listeners), callback) && store.state == old(store.state)
      ensures store.outbox == old(store.outbox) + [Auth.Delivery(callback, store.state)]
      ensures authChecked && !ShowsPlaceholder() && isSidebarOpen == old(isSidebarOpen)
      ensures navigations == old(navigations) + if ShouldRedirect(requireAuth, store.state) then ["/"] else []
      ensures unsubscribe == callback
    {
      unsubscribe := store.Subscribe(callback);
      OnAuthState(store.state);
    }

    /** The effect's cleanup. */
    method Unmount(store: Auth.SessionStore, callback: Auth.ListenerId)
      requires store.Valid()
      modifies store
      ensures store.Valid()
      ensures store.listeners == Seqs.Without(old(store.listeners), callback)
      ensures store.state == old(store.state) && store.outbox == old(store.outbox)
    {
      store.Unsubscribe(callback);
    }

    /** `toggleSidebar`. */
    method ToggleSidebar()
      modifies this
      ensures isSidebarOpen == !old(isSidebarOpen)
      ensures authChecked == old(authChecked) && navigations == old(navigations)
    {
      isSidebarOpen := !isSidebarOpen;
    }

    /** The sidebar's effect on a route change: on a small screen it closes itself. */
    method OnRouteChange(isMobile: bool)
      modifies this
      ensures isSidebarOpen == (old(isSidebarOpen) && !isMobile)
      ensures authChecked == old(authChecked) && navigations == old(navigations)
    {
      if isMobile {
        isSidebarOpen := false;
      }
    }
  }
}
