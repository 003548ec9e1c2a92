/** What the browser-side views learn from the auth client: sessions, auth events and the login route. */
module Auth {

  /** The events an `onAuthStateChange` listener receives. `OtherEvent` stands for the rest (`INITIAL_SESSION`, `USER_UPDATED`, ...). */
  datatype AuthEvent = SignedIn | TokenRefreshed | SignedOut | OtherEvent

  /** The events after which the views re-read the session and re-run their check. */
  predicate Rechecks(e: AuthEvent) {
    e == SignedIn || e == TokenRefreshed
  }

  /** Where every guard sends a visitor it turns away. */
  const LoginRoute: string := "/client/login"

  /** A navigation request: `router.push`, `router.replace`, or none. */
  datatype Nav = NoNav | Push(route: string) | Replace(route: string)
}
