/**
 * The user registry the three register handlers share: a collection of users that the
 * handlers look up by email and append to. `User.findOne({ email })` is the first user
 * whose email equals the one given, an absent email matching a user stored without one.
 */
module Users {
  import opened Wrappers

  /** A stored user; each field is whatever the handler passed to `new User(...)`. */
  datatype User = User(name: Option<string>, email: Option<string>, password: Option<string>)

  /** The status and `message` of a register response. */
  datatype Reply = Reply(status: int, message: string)

  /** `bcrypt.hash(password, 10)` as seen by the handlers: a function of the password. */
  type Hasher = string -> string

  /** `User.findOne({ email })` finds a user. */
  predicate EmailTaken(users: seq<User>, email: Option<string>): (taken: bool)
    ensures taken <==> email in (set u | u in users :: u.email)
  {
    exists i | 0 <= i < |users| :: users[i].email == email
  }

  /** No two users share an email. */
  ghost predicate UniqueEmails(users: seq<User>) {
    forall i, j | 0 <= i < j < |users| :: users[i].email != users[j].email
  }

  /** Appending a user whose email is not taken keeps emails unique, and makes it taken. */
  lemma AppendFreshEmail(users: seq<User>, u: User)
    requires UniqueEmails(users) && !EmailTaken(users, u.email)
    ensures UniqueEmails(users + [u])
    ensures EmailTaken(users + [u], u.email)
  {
    var all := users + [u];
    assert all[|users|] == u;
    forall i, j | 0 <= i < j < |all|
      ensures all[i].email != all[j].email
    {
      if j == |users| {
        assert all[i] == users[i];
      } else {
        assert all[i] == users[i] && all[j] == users[j];
      }
    }
  }

  /** The users collection. */
  class UserCollection {
    var users: seq<User>

    ghost predicate Valid()
      reads this
    {
      UniqueEmails(users)
    }

    constructor ()
      ensures Valid() && users == []
    {
      users := [];
    }

    /** `newUser.save()`, called only after the email was found free. */
    method Save(u: User)
      requires Valid() && !EmailTaken(users, u.email)
      modifies this
      ensures Valid()
      ensures users == old(users) + [u]
      ensures EmailTaken(users, u.email)
    {
      AppendFreshEmail(users, u);
      users := users + [u];
    }
  }
}
