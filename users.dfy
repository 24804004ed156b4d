/**
 * The catalog's user records as the authentication code sees them: a store
 * looked up by email address, into which Azure AD users are provisioned.
 * UserRepository and its persistence are not part of this model; the store
 * is a map from email to user, and a lookup that would throw (no such user)
 * reads as absent.
 */
module Users {
  import opened Common

  datatype UserState = Enabled | Disabled

  /** A user record: its id (a UUID the repository assigns), display name, email, external id and state. */
  datatype User = User(id: string, name: string, email: Option<string>, externalId: Option<string>, state: UserState)

  /** getUserByEmail: a null or unknown email finds no user. */
  function LookupUser(users: map<string, User>, email: Option<string>): (r: Option<User>)
    ensures r.Some? <==> email.Some? && email.value in users
    ensures r.Some? ==> r.value == users[email.value]
  {
    if email.Some? && email.value in users then Some(users[email.value]) else None
  }

  /** The user an email address stands for is an enabled one. */
  predicate IsEnabledUser(users: map<string, User>, email: Option<string>)
  {
    LookupUser(users, email).Some? && LookupUser(users, email).value.state == Enabled
  }

  /** The record createUser makes from a CreateUser with `active(true)`. */
  function NewUser(id: string, name: string, email: string, externalId: Option<string>): (u: User)
    ensures u.state == Enabled && u.email == Some(email)
  {
    User(id, name, Some(email), externalId, Enabled)
  }

  /** The user store. */
  class UserStore {
    var byEmail: map<string, User>

    constructor(initial: map<string, User>)
      ensures byEmail == initial
    {
      byEmail := initial;
    }

    /** getUserByEmail. */
    method GetUserByEmail(email: Option<string>) returns (r: Option<User>)
      ensures r == LookupUser(byEmail, email)
    {
      if email.Some? && email.value in byEmail {
        return Some(byEmail[email.value]);
      }
      return None;
    }

    /** createUser of an enabled user; the repository's fresh id is the parameter `id`. */
    method CreateUser(id: string, name: string, email: string, externalId: Option<string>) returns (u: User)
      modifies this
      ensures u == NewUser(id, name, email, externalId)
      ensures byEmail == old(byEmail)[email := u]
    {
      u := NewUser(id, name, email, externalId);
      byEmail := byEmail[email := u];
    }
  }
}
