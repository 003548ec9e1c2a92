/**
 * The route guard around protected pages: an initial `check()` and an auth-event listener
 * that move the view between `checking`, `authorized` and `unauthorized`, redirecting to
 * the login route whenever access is refused. Every lookup result is a parameter.
 */
module Guard {
  import opened Common
  import opened Rows
  import opened Auth
  import ClientData

  datatype Status = Checking | Authorized | Unauthorized

  /** The status before the first check completes. */
  const InitialStatus: Status := Checking

  /** The status the view moves to and the navigation it requests. */
  datatype Outcome = Outcome(status: Status, nav: Nav)

  /** Refusal: `setStatus('unauthorized')` and `router.replace('/client/login')`. */
  const Refused: Outcome := Outcome(Unauthorized, Replace(LoginRoute))

  /** The result of the role lookup (`clients` by `user_id`, `.limit(1).maybeSingle()`). */
  datatype RoleLookup = LookupError | NoRow | Row(role: string)

  /** The lookup as the store answers it: the first clients row of the user, or the read's error. */
  function LookupRole(store: Store, userId: string, fails: bool): (r: RoleLookup)
    ensures fails <==> r == LookupError
    ensures r == NoRow <==> !fails && forall c :: c in store.clients ==> c.userId != Some(userId)
    ensures r.Row? ==> exists c :: c in store.clients && c.userId == Some(userId) && c.role == r.role
  {
    if fails then LookupError
    else match ClientData.FirstClientOfUser(store.clients, userId)
      case None => NoRow
      case Some(c) => Row(c.role)
  }

  /** `!roles || roles.length === 0`: the page asks for no particular role. */
  predicate NoRolesRequired(roles: Option<seq<string>>) {
    roles.None? || roles.value == []
  }

  /** What `check()` decides, from the session it reads and the role lookup it would make. */
  function Check(session: Option<Session>, roles: Option<seq<string>>, lookup: RoleLookup): (r: Outcome)
    ensures session.None? ==> r == Refused
    ensures session.Some? && NoRolesRequired(roles) ==> r == Outcome(Authorized, NoNav)
    ensures r.status == Authorized <==>
      session.Some? && (NoRolesRequired(roles) || (lookup.Row? && lookup.role in roles.value))
    ensures r.status != Checking
    ensures r.status == Unauthorized <==> r == Refused
    ensures r.status == Authorized ==> r.nav == NoNav
  {
    if session.None? then Refused
    else if NoRolesRequired(roles) then Outcome(Authorized, NoNav)
    else match lookup
      case LookupError => Refused
      case NoRow => Refused
      case Row(role) => if role in roles.value then Outcome(Authorized, NoNav) else Refused
  }

  /** Without a role requirement the lookup's result, error included, does not matter. */
  lemma LookupIrrelevantWithoutRoles(session: Option<Session>, roles: Option<seq<string>>, a: RoleLookup, b: RoleLookup)
    requires NoRolesRequired(roles)
    ensures Check(session, roles, a) == Check(session, roles, b)
  {
  }

  /** Fail closed: with a role requirement, a failed or empty lookup refuses access. */
  lemma FailsClosed(session: Option<Session>, roles: Option<seq<string>>, lookup: RoleLookup)
    requires !NoRolesRequired(roles)
    requires lookup == LookupError || lookup == NoRow
    ensures Check(session, roles, lookup) == Refused
  {
  }

  /**
   * One auth event: the session the listener is given and, for the events that re-run the
   * check, the session and role lookup that check then observes.
   */
  datatype EventStep = EventStep(event: AuthEvent, session: Option<Session>, checkSession: Option<Session>, lookup: RoleLookup)

  /** The listener's reaction, from the current status. */
  function OnAuthEvent(status: Status, e: EventStep, roles: Option<seq<string>>): (r: Outcome)
    ensures e.session.None? || e.event == SignedOut ==> r == Refused
    ensures e.session.Some? && Rechecks(e.event) ==> r == Check(e.checkSession, roles, e.lookup)
    ensures e.session.Some? && e.event == OtherEvent ==> r == Outcome(status, NoNav)
  {
    if e.session.None? then Refused
    else if Rechecks(e.event) then Check(e.checkSession, roles, e.lookup)
    else if e.event == SignedOut then Refused
    else Outcome(status, NoNav)
  }

  /** An event that leaves the status where it was: any event but the three handled ones, with a session. */
  predicate Neutral(e: EventStep) {
    e.session.Some? && e.event == OtherEvent
  }

  /** An event whose re-run check authorizes. */
  predicate AuthorizingRecheck(e: EventStep, roles: Option<seq<string>>) {
    e.session.Some? && Rechecks(e.event) && Check(e.checkSession, roles, e.lookup).status == Authorized
  }

  /** The status after the initial check and then `events`, each handled to completion in order. */
  function Run(roles: Option<seq<string>>, session: Option<Session>, lookup: RoleLookup, events: seq<EventStep>): Status {
    if events == [] then Check(session, roles, lookup).status
    else OnAuthEvent(Run(roles, session, lookup, events[..|events| - 1]), events[|events| - 1], roles).status
  }

  /**
   * Authorization has a reason: either the initial check authorized and every later event was
   * neutral, or some re-run check authorized and every event after it was neutral.
   */
  lemma {:induction false} AuthorizedHasWitness(roles: Option<seq<string>>, session: Option<Session>, lookup: RoleLookup,
                                               events: seq<EventStep>)
    requires Run(roles, session, lookup, events) == Authorized
    ensures (Check(session, roles, lookup).status == Authorized && forall i :: 0 <= i < |events| ==> Neutral(events[i]))
      || exists k :: 0 <= k < |events| && AuthorizingRecheck(events[k], roles)
           && forall j :: k < j < |events| ==> Neutral(events[j])
  {
    if events != [] {
      var n := |events| - 1;
      var prefix := events[..n];
      var last := events[n];
      if AuthorizingRecheck(last, roles) {
        assert AuthorizingRecheck(events[n], roles);
      } else {
        assert Neutral(last);
        assert Run(roles, session, lookup, prefix) == Authorized;
        AuthorizedHasWitness(roles, session, lookup, prefix);
        assert forall i :: 0 <= i < |prefix| ==> prefix[i] == events[i];
        if Check(session, roles, lookup).status == Authorized && forall i :: 0 <= i < |prefix| ==> Neutral(prefix[i]) {
          assert forall i :: 0 <= i < |events| ==> Neutral(events[i]);
        } else {
          var k :| 0 <= k < |prefix| && AuthorizingRecheck(prefix[k], roles)
            && forall j :: k < j < |prefix| ==> Neutral(prefix[j]);
          assert AuthorizingRecheck(events[k], roles);
          assert forall j :: k < j < |events| ==> Neutral(events[j]);
        }
      }
    }
  }

  /** A sign-out, or any event without a session, leaves the view unauthorized. */
  lemma LosingSessionLocks(roles: Option<seq<string>>, session: Option<Session>, lookup: RoleLookup, events: seq<EventStep>)
    requires events != []
    requires events[|events| - 1].session.None? || events[|events| - 1].event == SignedOut
    ensures Run(roles, session, lookup, events) == Unauthorized
  {
  }

  /** What the guard renders. */
  datatype View = CheckingAccess | RedirectingToLogin | Children

  function Render(status: Status): (v: View)
    ensures v == Children <==> status == Authorized
    ensures v == CheckingAccess <==> status == Checking
  {
    match status
    case Checking => CheckingAccess
    case Unauthorized => RedirectingToLogin
    case Authorized => Children
  }

  /** Before any check completes the guard shows the checking notice, not the page. */
  lemma InitiallyHidden()
    ensures Render(InitialStatus) == CheckingAccess
  {
  }
}
