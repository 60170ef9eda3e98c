/** The backoffice authentication context: the stored token, the signed-in
    user and the loading flag, with the token check, login and logout. The
    answer of each `fetch` is a parameter (`Failure` is a thrown network
    error); the user is kept as the JSON value the server sent. */
module AuthContext {
  import opened Wrappers
  import Js

  /** A response: its `ok` flag and the outcome of `response.json()`. */
  datatype Answer = Answer(ok: bool, json: Result<Js.Value>)

  const LoginFailed := "Login failed"
  /** What destructuring `{ token, user }` out of `null` throws. */
  const DestructureNull := "Cannot destructure property 'token' of null"

  /** `isAuthenticated: !!user` */
  predicate IsAuthenticated(user: Js.Value) {
    Js.Truthy(user)
  }

  /** `localStorage.setItem` stores `String(v)`. */
  function StoredText(v: Js.Value, toText: Js.Value -> string): (r: string)
    ensures v.Str? ==> r == v.s
  {
    if v.Str? then v.s else toText(v)
  }

  /** What a login answer leads to: the token text and user to store, or the
      message thrown. */
  function LoginResult(answer: Result<Answer>, toText: Js.Value -> string): (r: Result<(string, Js.Value)>)
    ensures answer.Failure? ==> r == Failure(answer.error)
    ensures answer.Success? && !answer.value.ok ==> r == Failure(LoginFailed)
    ensures r.Success? ==> answer.Success? && answer.value.ok && answer.value.json.Success?
    ensures r.Success? ==> r.value.1 == Js.Get(answer.value.json.value, "user") &&
                           r.value.0 == StoredText(Js.Get(answer.value.json.value, "token"), toText)
  {
    if answer.Failure? then Failure(answer.error)
    else if !answer.value.ok then Failure(LoginFailed)
    else if answer.value.json.Failure? then Failure(answer.value.json.error)
    else
      var body := answer.value.json.value;
      if body.Null? || body.Undefined? then Failure(DestructureNull)
      else Success((StoredText(Js.Get(body, "token"), toText), Js.Get(body, "user")))
  }

  /** A login that the server answers with a string token and a user object
      stores exactly that token and signs that user in. */
  lemma LoginStoresAnswer(token: string, user: seq<(string, Js.Value)>, toText: Js.Value -> string)
    ensures var body := Js.Obj([("token", Js.Str(token)), ("user", Js.Obj(user))]);
            LoginResult(Success(Answer(true, Success(body))), toText) == Success((token, Js.Obj(user))) &&
            IsAuthenticated(LoginResult(Success(Answer(true, Success(body))), toText).value.1)
  {
    var entries := [("token", Js.Str(token)), ("user", Js.Obj(user))];
    assert "user"[0] != "token"[0];
    assert Js.Lookup(entries, "user") == Js.Lookup(entries[1..], "user") == Js.Obj(user);
  }

  class Session {
    /** `localStorage.getItem('admin_token')` */
    var token: Option<string>
    var user: Js.Value
    var isLoading: bool

    constructor (storedToken: Option<string>)
      ensures token == storedToken && user == Js.Null && isLoading
    {
      token := storedToken;
      user := Js.Null;
      isLoading := true;
    }

    /** `checkAuth()`. Without a (non-empty) token nobody is signed in and no
        request is made; otherwise `authorization` is the header sent. An ok
        answer signs its user in; anything else forgets the token. */
    method CheckAuth(answer: Result<Answer>) returns (authorization: Option<string>, r: bool)
      modifies this
      ensures old(token).None? || old(token).value == "" ==>
                authorization.None? && !r && user == Js.Null && token == old(token)
      ensures old(token).Some? && old(token).value != "" ==> authorization == Some("Bearer " + old(token).value)
      ensures old(token).Some? && old(token).value != "" ==>
                if answer.Success? && answer.value.ok && answer.value.json.Success? then
                  r && user == answer.value.json.value && token == old(token)
                else
                  !r && user == Js.Null && token.None?
      ensures isLoading == old(isLoading)
    {
      if token.None? || token.value == "" {
        authorization := None;
        user := Js.Null;
        r := false;
        return;
      }
      authorization := Some("Bearer " + token.value);
      if answer.Success? && answer.value.ok && answer.value.json.Success? {
        user := answer.value.json.value;
        r := true;
      } else {
        token := None;
        user := Js.Null;
        r := false;
      }
    }

    /** The mount effect: the token check, then the flag cleared. */
    method InitAuth(answer: Result<Answer>) returns (r: bool)
      modifies this
      ensures !isLoading
      ensures r ==> old(token).Some? && old(token).value != "" && token == old(token)
      ensures r ==> answer.Success? && answer.value.json.Success? && user == answer.value.json.value
      ensures !r ==> user == Js.Null && !IsAuthenticated(user)
    {
      var authorization;
      authorization, r := CheckAuth(answer);
      isLoading := false;
    }

    /** `login(email, password)`. `sent` is the JSON body posted. On success
        the token and user of the answer are stored; on failure both stay and
        the error is passed on. The flag is set during the call and cleared
        in `finally`. */
    method Login(email: string, password: string, answer: Result<Answer>, toText: Js.Value -> string)
        returns (sent: Js.Value, busyDuringCall: bool, r: Result<()>)
      modifies this
      ensures sent == Js.Obj([("email", Js.Str(email)), ("password", Js.Str(password))])
      ensures busyDuringCall && !isLoading
      ensures LoginResult(answer, toText).Success? ==>
                r == Success(()) && token == Some(LoginResult(answer, toText).value.0) &&
                user == LoginResult(answer, toText).value.1
      ensures LoginResult(answer, toText).Failure? ==>
                r == Failure(LoginResult(answer, toText).error) && token == old(token) && user == old(user)
    {
      isLoading := true;
      busyDuringCall := isLoading;
      sent := Js.Obj([("email", Js.Str(email)), ("password", Js.Str(password))]);
      var result := LoginResult(answer, toText);
      if result.Success? {
        token := Some(result.value.0);
        user := result.value.1;
        r := Success(());
      } else {
        r := Failure(result.error);
      }
      isLoading := false;
    }

    /** `logout()` */
    method Logout()
      modifies this
      ensures token.None? && user == Js.Null && !IsAuthenticated(user)
      ensures isLoading == old(isLoading)
    {
      token := None;
      user := Js.Null;
    }
  }
}
