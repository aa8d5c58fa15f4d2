/** Registration and login. */
module Users {
  import opened Records
  import opened DocumentStore

  const EmailTaken := "User with this email already exists"
  const InvalidRole := "Invalid role"
  const OrganizationRequired := "Organization name is required for organizers"
  const MissingCredentials := "Please provide email and password"
  const BadCredentials := "Invalid email or password"

  /** The validated registration body; an absent optional field is "". */
  datatype RegisterInput = RegisterInput(name: string, username: string, email: string,
                                         password: string, role: string, organizationName: string)

  /** The body of a 201 registration reply: no password. */
  datatype UserView = UserView(id: UserId, name: string, email: string, role: string)

  /** `registerUser`. The schema check, the duplicate-email check, then the
      User record is created, and only after that is the role checked; the
      organizer and attendee profiles come last. `hashedPassword` is what the
      password hasher returned for the submitted password. */
  method RegisterUser(db: Store, body: Validated<RegisterInput>, hashedPassword: string)
    returns (reply: Reply<UserView>)
    requires db.Valid()
    modifies db
    ensures db.Valid()
    ensures db.events == old(db.events) && db.tickets == old(db.tickets)
    ensures body.Rejected? ==> reply == Fail(400, body.message) && unchanged(db)
    ensures body.Accepted? && UserByEmail(old(db.users), body.value.email).Some? ==>
              reply == Fail(409, EmailTaken) && unchanged(db)
    ensures body.Accepted? && UserByEmail(old(db.users), body.value.email).None? ==>
              var b := body.value;
              var u := User(UserId(old(db.nextId)), b.name, b.username, b.email, b.role, hashedPassword);
              && db.users == old(db.users) + [u]
              && (b.role != "" && b.role != "organizer" && b.role != "attendee" ==>
                    reply == Fail(400, InvalidRole) &&
                    db.organizers == old(db.organizers) && db.attendees == old(db.attendees))
              && (b.role == "organizer" && b.organizationName == "" ==>
                    reply == Fail(400, OrganizationRequired) &&
                    db.organizers == old(db.organizers) && db.attendees == old(db.attendees))
              && (b.role == "organizer" && b.organizationName != "" ==>
                    reply == Reply(201, "", Some(UserView(u.id, u.name, u.email, u.role))) &&
                    db.organizers == old(db.organizers) +
                      [Organizer(OrganizerId(old(db.nextId) + 1), u.id, b.organizationName, [])] &&
                    db.attendees == old(db.attendees))
              && (b.role == "attendee" ==>
                    reply == Reply(201, "", Some(UserView(u.id, u.name, u.email, u.role))) &&
                    db.attendees == old(db.attendees) + [Attendee(AttendeeId(old(db.nextId) + 1), u.id, [], [], [])] &&
                    db.organizers == old(db.organizers))
              && (b.role == "" ==>
                    reply == Reply(201, "", Some(UserView(u.id, u.name, u.email, u.role))) &&
                    db.organizers == old(db.organizers) && db.attendees == old(db.attendees))
  {
    if body.Rejected? {
      return Fail(400, body.message);
    }
    var b := body.value;
    if UserByEmail(db.users, b.email).Some? {
      return Fail(409, EmailTaken);
    }
    var user := db.CreateUser(b.name, b.username, b.email, b.role, hashedPassword);
    if b.role != "" && b.role != "organizer" && b.role != "attendee" {
      return Fail(400, InvalidRole);
    }
    if b.role == "organizer" {
      if b.organizationName == "" {
        return Fail(400, OrganizationRequired);
      }
      var _ := db.CreateOrganizer(user.id, b.organizationName);
    }
    if b.role == "attendee" {
      var _ := db.CreateAttendee(user.id);
    }
    reply := Reply(201, "", Some(UserView(user.id, user.name, user.email, user.role)));
  }

  /** `loginUser`: empty email or password is refused before any lookup; an
      unknown email and a wrong password get the same 401 reply; success
      signs `{id}` of the first user with that email. `matches` is the
      password hasher's compare, `sign` the token issuer. */
  function LoginUser(users: seq<User>, email: string, password: string,
                     matches: (string, string) -> bool, sign: Payload -> string): (r: Reply<string>)
    ensures email == "" || password == "" ==> r == Fail(400, MissingCredentials)
    ensures r.status == 200 <==>
              && email != "" && password != ""
              && UserByEmail(users, email).Some?
              && matches(password, users[UserByEmail(users, email).value].password)
    ensures r.status == 200 ==>
              r.data == Some(sign(LoginPayload(users[UserByEmail(users, email).value].id)))
    ensures r.status != 200 && email != "" && password != "" ==> r == Fail(401, BadCredentials)
    ensures r.status in {200, 400, 401}
  {
    if email == "" || password == "" then Fail(400, MissingCredentials)
    else match UserByEmail(users, email)
      case None => Fail(401, BadCredentials)
      case Some(i) =>
        if !matches(password, users[i].password) then Fail(401, BadCredentials)
        else Reply(200, "", Some(sign(LoginPayload(users[i].id))))
  }
}
