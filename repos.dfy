/** The in-memory repositories (internal/infrastructure/memory/repos.go): maps from
    record id to record, each lookup scoped by tenant. None of them ever reports
    an error other than `device_exists` and `not_found`. */
module Repos {
  import opened Wrappers
  import opened Domain

  /** The device `id` as the tenant sees it: absent, or present under another tenant, reads as None. */
  function VisibleDevice(devices: map<string, Device>, tenant: string, id: string): (d: Option<Device>)
    ensures d.Some? <==> id in devices && devices[id].tenant == tenant
    ensures d.Some? ==> d.value == devices[id]
  {
    if id in devices && devices[id].tenant == tenant then Some(devices[id]) else None
  }

  function VisibleChallenge(challenges: map<string, Challenge>, tenant: string, id: string): (c: Option<Challenge>)
    ensures c.Some? <==> id in challenges && challenges[id].tenant == tenant
    ensures c.Some? ==> c.value == challenges[id]
  {
    if id in challenges && challenges[id].tenant == tenant then Some(challenges[id]) else None
  }

  /** A device or challenge stored for one tenant is invisible to every other tenant, whatever its id. */
  lemma TenantIsolation(devices: map<string, Device>, challenges: map<string, Challenge>, t1: string, t2: string, id: string)
    requires t1 != t2
    ensures id in devices && devices[id].tenant == t1 ==> VisibleDevice(devices, t2, id) == None
    ensures id in challenges && challenges[id].tenant == t1 ==> VisibleChallenge(challenges, t2, id) == None
  {
  }

  class DeviceRepo {
    var devices: map<string, Device>

    /** Every device is stored under its own id. */
    ghost predicate Valid()
      reads this
    {
      forall id | id in devices :: devices[id].id == id
    }

    constructor ()
      ensures Valid() && devices == map[]
    {
      devices := map[];
    }

    /** Inserts `d` unless a device with its id exists in any tenant. */
    method Create(d: Device) returns (err: Outcome<Failure>)
      requires Valid()
      modifies this
      ensures Valid()
      ensures d.id in old(devices) ==> err == Fail(Plain("device_exists")) && devices == old(devices)
      ensures d.id !in old(devices) ==> err == Pass && devices == old(devices)[d.id := d]
    {
      if d.id in devices {
        return Fail(Plain("device_exists"));
      }
      devices := devices[d.id := d];
      return Pass;
    }

    method GetById(tenant: string, id: string) returns (d: Option<Device>)
      ensures d == VisibleDevice(devices, tenant, id)
    {
      if id !in devices || devices[id].tenant != tenant {
        return None;
      }
      return Some(devices[id]);
    }

    /** Sets the state and update time of the tenant's device `id`; fails `not_found`
        and changes nothing when the tenant has no such device. */
    method UpdateState(tenant: string, id: string, state: string, now: int) returns (err: Outcome<Failure>)
      requires Valid()
      modifies this
      ensures Valid()
      ensures VisibleDevice(old(devices), tenant, id).None? ==> err == Fail(Plain("not_found")) && devices == old(devices)
      ensures VisibleDevice(old(devices), tenant, id).Some? ==>
                err == Pass && devices == old(devices)[id := old(devices)[id].(state := state, updatedAt := now)]
    {
      if id !in devices || devices[id].tenant != tenant {
        return Fail(Plain("not_found"));
      }
      devices := devices[id := devices[id].(state := state, updatedAt := now)];
      return Pass;
    }
  }

  class ChallengeRepo {
    var challenges: map<string, Challenge>

    ghost predicate Valid()
      reads this
    {
      forall id | id in challenges :: challenges[id].id == id
    }

    constructor ()
      ensures Valid() && challenges == map[]
    {
      challenges := map[];
    }

    /** Stores `c` under its id, silently replacing any challenge with that id, whatever its tenant. */
    method Create(c: Challenge) returns (err: Outcome<Failure>)
      requires Valid()
      modifies this
      ensures Valid()
      ensures err == Pass && challenges == old(challenges)[c.id := c]
    {
      challenges := challenges[c.id := c];
      return Pass;
    }

    method GetById(tenant: string, id: string) returns (c: Option<Challenge>)
      ensures c == VisibleChallenge(challenges, tenant, id)
    {
      if id !in challenges || challenges[id].tenant != tenant {
        return None;
      }
      return Some(challenges[id]);
    }

    method UpdateState(tenant: string, id: string, state: string, now: int) returns (err: Outcome<Failure>)
      requires Valid()
      modifies this
      ensures Valid()
      ensures VisibleChallenge(old(challenges), tenant, id).None? ==> err == Fail(Plain("not_found")) && challenges == old(challenges)
      ensures VisibleChallenge(old(challenges), tenant, id).Some? ==>
                err == Pass && challenges == old(challenges)[id := old(challenges)[id].(state := state, updatedAt := now)]
    {
      if id !in challenges || challenges[id].tenant != tenant {
        return Fail(Plain("not_found"));
      }
      challenges := challenges[id := challenges[id].(state := state, updatedAt := now)];
      return Pass;
    }
  }

  /** True of a user that a login for (tenant, username) may pick. */
  predicate UserMatches(u: User, tenant: string, username: string)
  {
    u.tenant == tenant && u.username == username
  }

  class UserRepo {
    var users: map<string, User>

    constructor ()
      ensures users == map[]
    {
      users := map[];
    }

    /** Adds a user under its id (the demo user at boot). */
    method Seed(u: User)
      modifies this
      ensures users == old(users)[u.id := u]
    {
      users := users[u.id := u];
    }

    /** Scans the users in no fixed order and returns one matching both tenant and
        username, or None exactly when no user matches. */
    method GetByUsername(tenant: string, username: string) returns (u: Option<User>)
      ensures u.Some? ==> u.value in users.Values && UserMatches(u.value, tenant, username)
      ensures u.None? ==> forall id | id in users :: !UserMatches(users[id], tenant, username)
    {
      var rest := users.Keys;
      while rest != {}
        invariant rest <= users.Keys
        invariant forall id | id in users.Keys - rest :: !UserMatches(users[id], tenant, username)
        decreases rest
      {
        var id :| id in rest;
        if users[id].tenant == tenant && users[id].username == username {
          return Some(users[id]);
        }
        rest := rest - {id};
      }
      return None;
    }

    method GetById(tenant: string, id: string) returns (u: Option<User>)
      ensures u.Some? <==> id in users && users[id].tenant == tenant
      ensures u.Some? ==> u.value == users[id]
    {
      if id !in users || users[id].tenant != tenant {
        return None;
      }
      return Some(users[id]);
    }
  }

  class SessionRepo {
    var sessions: map<string, Session>

    constructor ()
      ensures sessions == map[]
    {
      sessions := map[];
    }

    /** Stores `s` under its id, replacing any earlier session with that id. */
    method Create(s: Session) returns (err: Outcome<Failure>)
      modifies this
      ensures err == Pass && sessions == old(sessions)[s.id := s]
    {
      sessions := sessions[s.id := s];
      return Pass;
    }

    /** Revocation is not implemented: it succeeds and revokes nothing. */
    method RevokeByJwtId(tenant: string, jwtId: string, revokedAt: int) returns (err: Outcome<Failure>)
      ensures err == Pass
    {
      return Pass;
    }
  }
}
