/** The login session the user pages read from the `userData` storage entry. */
module Sessions {
  import opened Wrappers

  datatype Role = USER | SERVICE_PROVIDER | ADMIN

  datatype LoginSession = LoginSession(id: int, role: Role)

  /**
   * The guard `!session?.id || session.role !== "USER"` negated: a session
   * exists, its id is truthy (an id of 0 counts as absent) and its role is USER.
   */
  predicate LoggedInAsUser(session: Option<LoginSession>) {
    session.Some? && session.value.id != 0 && session.value.role == USER
  }
}
