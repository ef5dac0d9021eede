/**
 * The authentication routes of server/routes/auth.js and the session check every protected
 * route runs first. Tokens (built there from the user id and the clock) are parameters.
 */
module AuthRoutes {
  import opened Wrappers
  import opened Strings
  import opened Replies
  import opened Store

  /** The user as the routes report it. */
  datatype UserView = UserView(id: string, email: string, hasResume: bool)

  datatype Session = Session(token: string, user: UserView)

  function ViewOf(u: User): UserView {
    UserView(u.id, u.email, u.resume.Some?)
  }

  /**
   * `request.headers.authorization?.replace('Bearer ', '')` followed by the `!token` test:
   * None when the header is missing or leaves an empty token.
   */
  function BearerToken(header: Option<string>): (r: Option<string>)
    ensures header.None? ==> r.None?
    ensures r.Some? ==> r.value != "" && r.value == ReplaceFirst(header.value, "Bearer ", "")
    ensures header.Some? && ReplaceFirst(header.value, "Bearer ", "") != "" ==>
      r == Some(ReplaceFirst(header.value, "Bearer ", ""))
  {
    if header.None? then None
    else
      var token := ReplaceFirst(header.value, "Bearer ", "");
      if token == "" then None else Some(token)
  }

  /** A "Bearer <t>" header yields <t>. */
  lemma BearerPrefix(t: string)
    requires t != ""
    ensures BearerToken(Some("Bearer " + t)) == Some(t)
  {
    var h := "Bearer " + t;
    assert h[..7] == "Bearer ";
    assert IndexOf(h, "Bearer ") == Some(0);
    assert h[..0] + "" + h[7..] == t;
  }

  /** verifyAuth: the user id the presented session belongs to, or None for a 401. */
  function SessionUser(s: Store, header: Option<string>): (r: Option<string>)
    reads s
    ensures r.Some? <==> BearerToken(header).Some? && BearerToken(header).value in s.sessions
    ensures r.Some? ==> r.value == s.sessions[BearerToken(header).value]
  {
    var token := BearerToken(header);
    if token.Some? && token.value in s.sessions then Some(s.sessions[token.value]) else None
  }

  /** POST /register. `email` and `password` are "" when missing. */
  method Register(s: Store, email: string, password: string, token: string) returns (r: Reply<Session>)
    modifies s
    ensures email == "" || password == "" ==>
      r == Fail(BadRequest, "Email and password are required") && s.users == old(s.users) && s.sessions == old(s.sessions)
    ensures email != "" && password != "" && old(s.GetUser(email)).Some? ==>
      r == Fail(BadRequest, "User already exists") && s.users == old(s.users) && s.sessions == old(s.sessions)
    ensures email != "" && password != "" && old(s.GetUser(email)).None? ==>
      var u := User(UserId(|old(s.users)|), email, password, None);
      && s.users == old(s.users) + [u]
      && s.sessions == old(s.sessions)[token := u.id]
      && r == Ok(Session(token, UserView(u.id, email, false)))
    ensures s.applications == old(s.applications)
    ensures old(s.Valid()) ==> s.Valid()
  {
    if email == "" || password == "" {
      return Fail(BadRequest, "Email and password are required");
    }
    var existing := s.GetUser(email);
    if existing.Some? {
      return Fail(BadRequest, "User already exists");
    }
    var user := s.AddUser(email, password);
    s.sessions := s.sessions[token := user.id];
    FoundById(s.users, user.id, |s.users| - 1);
    r := Ok(Session(token, UserView(user.id, user.email, false)));
  }

  /** POST /login. */
  method Login(s: Store, email: string, password: string, token: string) returns (r: Reply<Session>)
    modifies s
    ensures s.users == old(s.users) && s.applications == old(s.applications)
    ensures old(s.GetUser(email)).None? || old(s.GetUser(email)).value.password != password ==>
      r == Fail(Unauthorized, "Invalid credentials") && s.sessions == old(s.sessions)
    ensures old(s.GetUser(email)).Some? && old(s.GetUser(email)).value.password == password ==>
      var u := old(s.GetUser(email)).value;
      s.sessions == old(s.sessions)[token := u.id] && r == Ok(Session(token, ViewOf(u)))
    ensures old(s.Valid()) ==> s.Valid()
  {
    var user := s.GetUser(email);
    if user.None? || user.value.password != password {
      return Fail(Unauthorized, "Invalid credentials");
    }
    ghost var i :| 0 <= i < |s.users| && s.users[i] == user.value;
    FoundById(s.users, user.value.id, i);
    s.sessions := s.sessions[token := user.value.id];
    r := Ok(Session(token, ViewOf(user.value)));
  }

  /** POST /logout: drops the presented token, if any; always succeeds. */
  method Logout(s: Store, header: Option<string>)
    modifies s
    ensures BearerToken(header).None? ==> s.sessions == old(s.sessions)
    ensures BearerToken(header).Some? ==> s.sessions == old(s.sessions) - {BearerToken(header).value}
    ensures s.users == old(s.users) && s.applications == old(s.applications)
    ensures old(s.Valid()) ==> s.Valid()
  {
    var token := BearerToken(header);
    if token.Some? {
      s.sessions := s.sessions - {token.value};
    }
  }

  /** GET /verify. */
  method Verify(s: Store, header: Option<string>) returns (r: Reply<UserView>)
    ensures SessionUser(s, header).None? ==> r == Fail(Unauthorized, "Unauthorized")
    ensures SessionUser(s, header).Some? && s.GetUserById(SessionUser(s, header).value).None? ==>
      r == Fail(Unauthorized, "User not found")
    ensures SessionUser(s, header).Some? && s.GetUserById(SessionUser(s, header).value).Some? ==>
      r == Ok(ViewOf(s.GetUserById(SessionUser(s, header).value).value))
    ensures r.Ok? ==> r.value.id == SessionUser(s, header).value
  {
    var token := BearerToken(header);
    if token.None? || token.value !in s.sessions {
      return Fail(Unauthorized, "Unauthorized");
    }
    var userId := s.sessions[token.value];
    var user := s.GetUserById(userId);
    if user.None? {
      return Fail(Unauthorized, "User not found");
    }
    r := Ok(ViewOf(user.value));
  }

  /** In a consistent store, a live session always names a user, so "User not found" cannot occur. */
  lemma VerifyFindsUser(s: Store, header: Option<string>)
    requires s.Valid() && SessionUser(s, header).Some?
    ensures s.GetUserById(SessionUser(s, header).value).Some?
  {
    var id := SessionUser(s, header).value;
    var i := IndexById(s.users, id).value;
    assert s.users[i].id == id;
  }
}
