/**
 * frontend/src/api/register.js: POST /register. All three fields must be truthy, a taken
 * email is answered 409, and otherwise the user is stored with the hash of the password.
 * `saveFails` stands for the store rejecting the save, which ends in the catch block.
 */
module RegisterRoute {
  import opened Wrappers
  import opened JsValues
  import opened Users

  /** Some field is missing or empty. */
  predicate MissingField(name: Option<string>, email: Option<string>, password: Option<string>): (missing: bool)
    ensures !missing <==>
      name.Some? && email.Some? && password.Some?
      && name.value != "" && email.value != "" && password.value != ""
  {
    Falsy(name) || Falsy(email) || Falsy(password)
  }

  method Register(db: UserCollection, name: Option<string>, email: Option<string>, password: Option<string>,
                  hash: Hasher, saveFails: bool) returns (reply: Reply)
    requires db.Valid()
    modifies db
    ensures db.Valid()
    ensures MissingField(name, email, password) ==>
      reply == Reply(400, "All fields are required") && db.users == old(db.users)
    ensures !MissingField(name, email, password) && EmailTaken(old(db.users), email) ==>
      reply == Reply(409, "Email already in use") && db.users == old(db.users)
    ensures !MissingField(name, email, password) && !EmailTaken(old(db.users), email) && saveFails ==>
      reply == Reply(500, "Server error during registration") && db.users == old(db.users)
    ensures !MissingField(name, email, password) && !EmailTaken(old(db.users), email) && !saveFails ==>
      reply == Reply(201, "User registered successfully")
      && db.users == old(db.users) + [User(name, email, Some(hash(password.value)))]
    ensures reply.status == 201 <==> |db.users| == |old(db.users)| + 1
  {
    if MissingField(name, email, password) {
      return Reply(400, "All fields are required");
    }
    if EmailTaken(db.users, email) {
      return Reply(409, "Email already in use");
    }
    var hashedPassword := hash(password.value);
    if saveFails {
      return Reply(500, "Server error during registration");
    }
    db.Save(User(name, email, Some(hashedPassword)));
    reply := Reply(201, "User registered successfully");
  }
}
