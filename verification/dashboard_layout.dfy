/**
 * The dashboard shell: it holds the current client and a loading flag, loads the client
 * profile on mount and again after sign-in or token refresh, and sends the visitor to the
 * login route when the session goes away.
 */
module DashboardLayout {
  import opened Common
  import opened Rows
  import opened Auth
  import ClientApi

  datatype LayoutState = LayoutState(client: Option<Client>, loading: bool)

  /** `useState(null)` and `useState(true)`. */
  const InitialLayout: LayoutState := LayoutState(None, true)

  /** The state after the session went away: no client, not loading. */
  const SignedOutLayout: LayoutState := LayoutState(None, false)

  /**
   * `loadClient()`: without a session, clear the client and push the login route; with one,
   * store the profile read (possibly `null`) and stop loading.
   */
  function LoadClient(session: Option<Session>, store: Store, lookupFails: bool): (r: (LayoutState, Nav))
    ensures !r.0.loading
    ensures session.None? ==> r == (SignedOutLayout, Push(LoginRoute))
    ensures session.Some? ==> r.1 == NoNav
    ensures r.0.client.Some? ==>
      session.Some? && r.0.client.value in store.clients && r.0.client.value.userId == Some(session.value.userId)
    ensures session.Some? && !lookupFails && |ClientsOfUser(store, session.value.userId)| == 1 ==> r.0.client.Some?
  {
    if session.None? then (SignedOutLayout, Push(LoginRoute))
    else (LayoutState(ClientApi.GetClientProfile(session, store, lookupFails), false), NoNav)
  }

  /** What the listener does at once, and whether it starts a new `loadClient()`. */
  datatype Reaction = Reaction(state: LayoutState, nav: Nav, reload: bool)

  function OnAuthChange(state: LayoutState, event: AuthEvent, session: Option<Session>): (r: Reaction)
    ensures session.None? || event == SignedOut ==> r == Reaction(SignedOutLayout, Replace(LoginRoute), false)
    ensures session.Some? && Rechecks(event) ==> r == Reaction(state.(loading := true), NoNav, true)
    ensures session.Some? && event == OtherEvent ==> r == Reaction(state, NoNav, false)
  {
    if session.None? then Reaction(SignedOutLayout, Replace(LoginRoute), false)
    else if Rechecks(event) then Reaction(state.(loading := true), NoNav, true)
    else if event == SignedOut then Reaction(SignedOutLayout, Replace(LoginRoute), false)
    else Reaction(state, NoNav, false)
  }

  /** The listener's reaction followed, when it reloads, by that reload completing. */
  function Settle(state: LayoutState, event: AuthEvent, session: Option<Session>,
                  loadSession: Option<Session>, store: Store, lookupFails: bool): (LayoutState, Nav) {
    var r := OnAuthChange(state, event, session);
    if r.reload then LoadClient(loadSession, store, lookupFails) else (r.state, r.nav)
  }

  /** Once a reload it started has completed, the shell is not loading unless it already was. */
  lemma SettledReloadStopsLoading(state: LayoutState, event: AuthEvent, session: Option<Session>,
                                  loadSession: Option<Session>, store: Store, lookupFails: bool)
    ensures var s := Settle(state, event, session, loadSession, store, lookupFails);
      s.0.loading ==> state.loading && session.Some? && event == OtherEvent
    ensures var s := Settle(state, event, session, loadSession, store, lookupFails);
      s.0.client.Some? ==> s.0.client == state.client || s.0.client.value in store.clients
  {
  }

  /**
   * A session whose user has no resolvable clients row leaves a shell that is not loading and
   * has no client, and no redirect is requested: the shell does not guard on the profile.
   */
  lemma ProfileMissIsNotRedirected(session: Option<Session>, store: Store, lookupFails: bool)
    requires session.Some?
    requires lookupFails || |ClientsOfUser(store, session.value.userId)| != 1
    ensures LoadClient(session, store, lookupFails) == (LayoutState(None, false), NoNav)
  {
  }

  /** `handleSignOut`: sign out, then always push the login route. */
  function SignOut(state: LayoutState): (r: (LayoutState, Nav))
    ensures r.1 == Push(LoginRoute)
    ensures r.0 == state
  {
    (state, Push(LoginRoute))
  }

  /** The header greeting: `Welcome`, then `, name` only when the client has a non-empty name. */
  function WelcomeText(client: Option<Client>): (r: string)
    ensures |r| >= 7 && r[..7] == "Welcome"
    ensures |r| == 7 <==> client.None? || client.value.name == ""
    ensures |r| > 7 ==> client.Some? && |r| > 9 && r[7..9] == ", " && r[9..] == client.value.name
  {
    if client.Some? && client.value.name != "" then "Welcome, " + client.value.name else "Welcome"
  }
}
