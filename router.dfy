/**
 * The route table and the navigation guard of src/router/index.ts. The
 * guard's `logout()` call is a flag of its decision; its toasts are left out.
 */
module Router {
  import opened Wrappers
  import opened AuthStore

  /** A route's path, name and `meta.requiresAuth`; the layout flags are view concerns. */
  datatype Route = Route(path: string, name: string, requiresAuth: bool)

  const LoginPath: string := "/login"
  const ChatroomPath: string := "/chatroom"
  const LoginRouteName: string := "Login"

  const Routes: seq<Route> := [
    Route(LoginPath, LoginRouteName, false),
    Route("/", "Home", true),
    Route("/Home", "Home", true),
    Route("/BookShelf", "書架", true),
    Route("/BookShelf/Add", "Acticle Generator", true),
    Route("/BookShelf/View/:id", "Acticle Viewer", true),
    Route("/Chatroom", "聊天室", true),
    Route("/:pathMatch(.*)*", "NotFound", true)
  ]

  /** Go to `path` (signing out first when `signOut`), or let the navigation through (`true`). */
  datatype Decision = Redirect(path: string, signOut: bool) | Allow

  /** Only the login route is open; every other route, the catch-all among them, requires sign-in. */
  lemma OnlyLoginIsPublic()
    ensures forall i :: 0 <= i < |Routes| ==> (!Routes[i].requiresAuth <==> Routes[i].path == LoginPath)
    ensures forall i :: 0 <= i < |Routes| ==> (Routes[i].name == LoginRouteName <==> i == 0)
  {
  }

  /**
   * `beforeEach` as written: the second branch compares the route name
   * with `login`, in lower case.
   */
  function BeforeEachAsWritten(to: Route, state: UserState): (d: Decision)
    ensures d.Redirect? && d.signOut <==> to.requiresAuth && !IsAuthenticated(state)
  {
    if to.requiresAuth && !IsAuthenticated(state) then Redirect(LoginPath, true)
    else if to.name == "login" && IsAuthenticated(state) then Redirect(ChatroomPath, false)
    else Allow
  }

  /** As written, no declared route ever takes the second branch: a signed-in user is let through everywhere. */
  lemma AsWrittenLetsSignedInUserOntoLogin(state: UserState)
    requires IsAuthenticated(state)
    ensures BeforeEachAsWritten(Routes[0], state) == Allow
    ensures forall i :: 0 <= i < |Routes| ==> BeforeEachAsWritten(Routes[i], state) == Allow
  {
    forall i | 0 <= i < |Routes| ensures Routes[i].name != "login" {
      assert Routes[i].name[0] != 'l';
    }
  }

  /**
   * `beforeEach` as evidently intended: a route that requires sign-in, met
   * without both tokens, signs out and goes to the login page; a signed-in
   * user heading for the login route goes to the chat room; every other
   * navigation is let through.
   */
  function BeforeEach(to: Route, state: UserState): (d: Decision)
    ensures d.Redirect? && d.signOut <==> to.requiresAuth && !IsAuthenticated(state)
    ensures d.Redirect? && d.signOut ==> d.path == LoginPath
    ensures d.Redirect? && !d.signOut <==> to.name == LoginRouteName && IsAuthenticated(state)
    ensures d.Redirect? && !d.signOut ==> d.path == ChatroomPath
  {
    if to.requiresAuth && !IsAuthenticated(state) then Redirect(LoginPath, true)
    else if to.name == LoginRouteName && IsAuthenticated(state) then Redirect(ChatroomPath, false)
    else Allow
  }

  /** Signed out, the login page is the only declared route one can reach. */
  lemma SignedOutReachesOnlyLogin(state: UserState)
    requires !IsAuthenticated(state)
    ensures forall i :: 0 <= i < |Routes| ==> (BeforeEach(Routes[i], state) == Allow <==> i == 0)
  {
  }

  /** Signed in, every declared route but the login page is reachable, and the login page sends to the chat room. */
  lemma SignedInReachesAllButLogin(state: UserState)
    requires IsAuthenticated(state)
    ensures BeforeEach(Routes[0], state) == Redirect(ChatroomPath, false)
    ensures forall i :: 1 <= i < |Routes| ==> BeforeEach(Routes[i], state) == Allow
  {
    OnlyLoginIsPublic();
  }
}
