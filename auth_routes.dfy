/**
 * backend/routes/authRoutes.js: POST /register. All three fields must be truthy, a taken
 * email is answered 400, and otherwise the user is stored with the password as given,
 * without hashing. `saveFails` stands for the store rejecting the save.
 */
module AuthRoutes {
  import opened Wrappers
  import opened JsValues
  import opened Users
  import RegisterRoute

  method Register(db: UserCollection, name: Option<string>, email: Option<string>, password: Option<string>,
                  saveFails: bool) returns (reply: Reply)
    requires db.Valid()
    modifies db
    ensures db.Valid()
    ensures RegisterRoute.MissingField(name, email, password) ==>
      reply == Reply(400, "All fields required") && db.users == old(db.users)
    ensures !RegisterRoute.MissingField(name, email, password) && EmailTaken(old(db.users), email) ==>
      reply == Reply(400, "Email already registered") && db.users == old(db.users)
    ensures !RegisterRoute.MissingField(name, email, password) && !EmailTaken(old(db.users), email) && saveFails ==>
      reply == Reply(500, "Registration failed") && db.users == old(db.users)
    ensures !RegisterRoute.MissingField(name, email, password) && !EmailTaken(old(db.users), email) && !saveFails ==>
      reply == Reply(201, "User registered successfully")
      && db.users == old(db.users) + [User(name, email, password)]
    ensures reply.status == 201 <==> |db.users| == |old(db.users)| + 1
  {
    if RegisterRoute.MissingField(name, email, password) {
      return Reply(400, "All fields required");
    }
    if EmailTaken(db.users, email) {
      return Reply(400, "Email already registered");
    }
    if saveFails {
      return Reply(500, "Registration failed");
    }
    db.Save(User(name, email, password));
    reply := Reply(201, "User registered successfully");
  }
}
