/** Primary-credential login (internal/application/auth_service.go). Password
    verification is not implemented by the source beyond rejecting an empty password. */
module AuthService {
  import opened Wrappers
  import opened Domain
  import opened Repos

  const SessionLifetime: int := 15 * Minute

  class AuthService {
    const users: UserRepo
    const sessions: SessionRepo

    constructor (users: UserRepo, sessions: SessionRepo)
      ensures this.users == users && this.sessions == sessions
    {
      this.users := users;
      this.sessions := sessions;
    }

    /** Fails `invalid_credentials`, recording nothing, when no user of the tenant has that
        username or the password is empty. Otherwise records and returns a session for the
        request tenant and a matching user, expiring 15 minutes after `now`, with empty id
        and token id (so each login replaces the previous session). */
    method Login(tenant: string, username: string, password: string, now: int) returns (r: Result<Session, Failure>)
      modifies sessions
      ensures r.Err? <==> (password == "" || forall id | id in users.users :: !UserMatches(users.users[id], tenant, username))
      ensures r.Err? ==> r.error == Plain("invalid_credentials") && sessions.sessions == old(sessions.sessions)
      ensures r.Ok? ==> && (exists u | u in users.users.Values :: UserMatches(u, tenant, username) && r.value.userId == u.id)
                        && r.value == Session("", tenant, r.value.userId, "", now + SessionLifetime, None)
                        && sessions.sessions == old(sessions.sessions)[r.value.id := r.value]
    {
      var user := users.GetByUsername(tenant, username);
      if user.None? {
        return Err(Plain("invalid_credentials"));
      }
      if password == "" {
        return Err(Plain("invalid_credentials"));
      }
      var session := Session("", tenant, user.value.id, "", now + SessionLifetime, None);
      var created := sessions.Create(session);
      assert created == Pass;
      return Ok(session);
    }
  }
}
