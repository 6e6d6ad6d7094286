/** The session (src/context/AuthProvider.tsx): logging in with a phone
    number and a password, checking the backend's answer, building the user
    record the app keeps, and logging out. */
module Auth {
  import opened Text
  import opened Json
  import opened Phone

  /** The user the app keeps; fields stay raw values as the backend sent
      them. */
  datatype User = User(id: Value, nome: Value, email: Value, phone: Value)

  /** The login response body: its token, and its `user` object when it is
      one. */
  datatype LoginAnswer = LoginAnswer(token: Value, user: Option<Record>)

  /** A request that threw: the backend's `error` field
      (`e.response.data.error`, undefined without a response) and the
      exception's `message` ("" when it has none). */
  datatype RequestFailure = RequestFailure(backendError: Value, message: string)

  /** What the login request came back with: a response body, or the
      failure it threw. */
  datatype LoginReply = Answered(body: LoginAnswer) | Threw(failure: RequestFailure)

  /** Why a login failed: the phone had no digits left (no request is
      sent), the request itself failed, or the answer lacked a token or a
      user id. */
  datatype LoginError = InvalidPhone | RequestFailed(failure: RequestFailure) | InvalidAnswer

  datatype LoginResult = Failed(error: LoginError) | LoggedIn(token: Value, user: User)

  /** `safeUser`: the name falls back from `nome` to `name` to "Usuário",
      the e-mail to null and the phone to the number used to log in. */
  function SafeUser(usr: Record, phone: string): (u: User)
    ensures u.id == Field(usr, "id")
    ensures !Nullish(Field(usr, "nome")) ==> u.nome == Field(usr, "nome")
    ensures Nullish(Field(usr, "nome")) && !Nullish(Field(usr, "name")) ==> u.nome == Field(usr, "name")
    ensures Nullish(Field(usr, "nome")) && Nullish(Field(usr, "name")) ==> u.nome == VStr("Usuário")
    ensures Nullish(Field(usr, "email")) ==> u.email == VNull
    ensures !Nullish(Field(usr, "email")) ==> u.email == Field(usr, "email")
    ensures Nullish(Field(usr, "phone")) ==> u.phone == VStr(phone)
    ensures !Nullish(Field(usr, "phone")) ==> u.phone == Field(usr, "phone")
    ensures !Nullish(u.nome) && !Nullish(u.phone)
  {
    User(Field(usr, "id"),
      OrElse(Field(usr, "nome"), OrElse(Field(usr, "name"), VStr("Usuário"))),
      OrElse(Field(usr, "email"), VNull),
      OrElse(Field(usr, "phone"), VStr(phone)))
  }

  /** What `login` does with the typed phone and the backend's reply. */
  function LoginOutcome(phoneInput: string, reply: LoginReply): LoginResult
  {
    var phone := NormalizePhoneDigits(phoneInput);
    if phone == "" then Failed(InvalidPhone)
    else if reply.Threw? then Failed(RequestFailed(reply.failure))
    else
      var answer := reply.body;
      if !Truthy(answer.token) || answer.user.None? || !Truthy(Field(answer.user.value, "id")) then Failed(InvalidAnswer)
      else LoggedIn(answer.token, SafeUser(answer.user.value, phone))
  }

  /** A login succeeds exactly when the phone has digits, the request
      answered, and the answer carries a token and a user id; the user kept
      is the one the answer describes, with the normalised phone as its
      fallback. */
  lemma LoginOutcomeCases(phoneInput: string, reply: LoginReply)
    ensures var r := LoginOutcome(phoneInput, reply);
      (r == Failed(InvalidPhone) <==> NormalizePhoneDigits(phoneInput) == "")
      && (r.Failed? && r.error.RequestFailed? <==> NormalizePhoneDigits(phoneInput) != "" && reply.Threw?)
      && (r.Failed? && r.error.RequestFailed? ==> r.error.failure == reply.failure)
      && (r.LoggedIn? <==> (NormalizePhoneDigits(phoneInput) != "" && reply.Answered? && Truthy(reply.body.token)
            && reply.body.user.Some? && Truthy(Field(reply.body.user.value, "id"))))
      && (r.LoggedIn? ==> (r.token == reply.body.token && Truthy(r.user.id)
            && r.user == SafeUser(reply.body.user.value, NormalizePhoneDigits(phoneInput))))
  {
  }

  /** A login request as sent: the normalised phone and the password. */
  datatype LoginRequest = LoginRequest(celular: string, senha: string)

  class Session {
    var token: Option<Value>
    var user: Option<User>
    var requests: seq<LoginRequest>

    constructor ()
      ensures token == None && user == None && requests == []
    {
      token := None;
      user := None;
      requests := [];
    }

    /** `login`: a failed login leaves the session as it was; a request is
        sent only for a phone with digits. */
    method Login(phoneInput: string, senha: string, reply: LoginReply) returns (r: LoginResult)
      modifies this
      ensures r == LoginOutcome(phoneInput, reply)
      ensures var phone := NormalizePhoneDigits(phoneInput);
        requests == old(requests) + (if phone == "" then [] else [LoginRequest(phone, senha)])
      ensures r.LoggedIn? ==> token == Some(r.token) && user == Some(r.user)
      ensures r.Failed? ==> token == old(token) && user == old(user)
    {
      var phone := NormalizePhoneDigits(phoneInput);
      if phone == "" {
        return Failed(InvalidPhone);
      }
      requests := requests + [LoginRequest(phone, senha)];
      if reply.Threw? {
        return Failed(RequestFailed(reply.failure));
      }
      var tok := reply.body.token;
      var usr := reply.body.user;
      if !Truthy(tok) || usr.None? || !Truthy(Field(usr.value, "id")) {
        return Failed(InvalidAnswer);
      }
      var safe := SafeUser(usr.value, phone);
      token := Some(tok);
      user := Some(safe);
      r := LoggedIn(tok, safe);
    }

    /** `logout`. */
    method Logout()
      modifies this
      ensures token == None && user == None && requests == old(requests)
    {
      token := None;
      user := None;
    }
  }
}
