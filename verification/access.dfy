/**
 The access gate: the current user is read once from session storage, and
 only the roles "admin" and "manager" may see the reports.
 */
module Access {
  import opened Wrappers

  /** The session identity; `permissions` is carried but never consulted. */
  datatype User = User(userId: string, role: string, permissions: Option<seq<string>>)

  /** The session-storage key holding the current user. */
  const SessionUserKey: string := "user"

  /** The roles that may view the reports, matched exactly (case-sensitive). */
  const ReportRoles: set<string> := {"admin", "manager"}

  /**
   What session storage holds under a key, once decoded: a user record, or
   text that yields no user (empty, malformed JSON, or not a user object).
   */
  datatype SessionValue = UserRecord(user: User) | Unreadable

  /** Decoded contents of the host's session storage. */
  type SessionStore = map<string, SessionValue>

  /** The current user: the stored record, or none when it is absent or unreadable. */
  function CurrentUser(session: SessionStore): Option<User> {
    if SessionUserKey in session && session[SessionUserKey].UserRecord? then
      Some(session[SessionUserKey].user)
    else None
  }

  /** The source's `canViewReports`: the role of a present user is "admin" or "manager". */
  predicate CanViewReports(user: Option<User>) {
    user.Some? && (user.value.role == "admin" || user.value.role == "manager")
  }

  /**
   The gate admits exactly the users whose role is one of the report roles,
   whatever their id or permissions, and no one when there is no user.
   */
  lemma GateAdmitsReportRoles(user: Option<User>)
    ensures CanViewReports(user) <==> user.Some? && user.value.role in ReportRoles
    ensures user.None? ==> !CanViewReports(user)
  {
  }

  /** Role matching is exact: other spellings and other roles are refused. */
  lemma GateIsCaseSensitive(id: string, permissions: Option<seq<string>>)
    ensures !CanViewReports(Some(User(id, "Admin", permissions)))
    ensures !CanViewReports(Some(User(id, "MANAGER", permissions)))
    ensures !CanViewReports(Some(User(id, "customer", permissions)))
    ensures CanViewReports(Some(User(id, "admin", permissions)))
  {
  }
}
