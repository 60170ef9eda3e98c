/** The backoffice API client: building the request for an endpoint, method
    and payload, and turning the response into a value or an error. The
    stored token and the browser location are fields of `Client`; `fetch` is
    a parameter from the request to the response (or the thrown network
    error). A response body is given as the outcome of `response.json()`, and
    `toText` is JavaScript's `String(v)` for a non-string message. */
module ApiClient {
  import opened Wrappers
  import Js

  datatype HttpMethod = GET | POST | PUT | PATCH | DELETE

  const DefaultBaseUrl := "/api"

  /** `process.env.REACT_APP_API_BASE_URL || '/api'` */
  function BaseUrl(env: Option<string>): (r: string)
    ensures env.Some? && env.value != "" ==> r == env.value
    ensures env.None? || env.value == "" ==> r == DefaultBaseUrl
  {
    if env.Some? && env.value != "" then env.value else DefaultBaseUrl
  }

  datatype Request = Request(
    url: string,
    verb: HttpMethod,
    headers: seq<(string, string)>,
    credentials: string,
    body: Option<Js.Value>)

  /** Whether a method sends a payload. */
  predicate SendsBody(m: HttpMethod) {
    m == POST || m == PUT || m == PATCH
  }

  /** The `fetch` arguments for `apiRequest(endpoint, method, data)` with the
      stored `token`. The payload is kept as the value `JSON.stringify`
      serializes. */
  function BuildRequest(env: Option<string>, endpoint: string, m: HttpMethod, token: Option<string>,
                        data: Js.Value): (r: Request)
    ensures r.url == BaseUrl(env) + endpoint && r.verb == m && r.credentials == "include"
    ensures |r.headers| == if token.Some? && token.value != "" then 2 else 1
    ensures r.headers[0] == ("Content-Type", "application/json")
    ensures ("Authorization", "Bearer " + token.GetOr("")) in r.headers <==> token.Some? && token.value != ""
    ensures r.body.Some? <==> Js.Truthy(data) && SendsBody(m)
    ensures r.body.Some? ==> r.body.value == data
  {
    var auth := if token.Some? && token.value != "" then [("Authorization", "Bearer " + token.value)] else [];
    Request(BaseUrl(env) + endpoint, m, [("Content-Type", "application/json")] + auth, "include",
            if Js.Truthy(data) && SendsBody(m) then Some(data) else None)
  }

  /** `api.get`, `api.delete` and the payload-less header of every verb. */
  lemma NoBodyWithoutPayloadVerb(env: Option<string>, endpoint: string, token: Option<string>, data: Js.Value)
    ensures BuildRequest(env, endpoint, GET, token, data).body.None?
    ensures BuildRequest(env, endpoint, DELETE, token, data).body.None?
    ensures forall m :: BuildRequest(env, endpoint, m, token, Js.Undefined).body.None?
  {
  }

  /** What `fetch` resolves to. */
  datatype Response = Response(status: int, ok: bool, statusText: string, json: Result<Js.Value>)

  const UnauthorizedError := "Unauthorized access. Please log in again."
  const DefaultError := "An error occurred during the API request"
  const LoginPath := "/admin/login"

  /** `new Error(v)`'s message. */
  function MessageText(v: Js.Value, toText: Js.Value -> string): string {
    if v.Str? then v.s else toText(v)
  }

  /** The message thrown for a response that is not ok: the body's truthy
      `message`, the default when the body has none, and the status text (or
      the default) when the body cannot be read or is `null`. */
  function ErrorMessage(resp: Response, toText: Js.Value -> string): (r: string)
    ensures resp.json.Success? && Js.Get(resp.json.value, "message").Str? && Js.Get(resp.json.value, "message").s != "" ==>
              r == Js.Get(resp.json.value, "message").s
    ensures resp.json.Failure? || resp.json.value.Null? || resp.json.value.Undefined? ==>
              r == (if resp.statusText != "" then resp.statusText else DefaultError)
    ensures resp.json.Success? && !Js.Truthy(Js.Get(resp.json.value, "message")) &&
            !resp.json.value.Null? && !resp.json.value.Undefined? ==>
              r == DefaultError
    ensures resp.json.Success? && !resp.json.value.Null? && !resp.json.value.Undefined? &&
            Js.Truthy(Js.Get(resp.json.value, "message")) && !Js.Get(resp.json.value, "message").Str? ==>
              r == toText(Js.Get(resp.json.value, "message"))
  {
    if resp.json.Failure? || resp.json.value.Null? || resp.json.value.Undefined? then
      if resp.statusText != "" then resp.statusText else DefaultError
    else
      MessageText(Js.Or(Js.Get(resp.json.value, "message"), Js.Str(DefaultError)), toText)
  }

  /** The value `apiRequest` resolves to, or the message it rejects with. */
  function Classify(resp: Response, toText: Js.Value -> string): (r: Result<Js.Value>)
    ensures resp.status == 401 ==> r == Failure(UnauthorizedError)
    ensures resp.status != 401 && !resp.ok ==> r == Failure(ErrorMessage(resp, toText))
    ensures resp.status != 401 && resp.ok && resp.status == 204 ==> r == Success(Js.Obj([]))
    ensures resp.status != 401 && resp.ok && resp.status != 204 ==> r == resp.json
    ensures r.Success? ==> resp.ok && resp.status != 401
  {
    if resp.status == 401 then Failure(UnauthorizedError)
    else if !resp.ok then Failure(ErrorMessage(resp, toText))
    else if resp.status == 204 then Success(Js.Obj([]))
    else resp.json
  }

  /** A `204 No Content` answer resolves to `{}` whatever its body, and a 401
      is an error whatever the `ok` flag says. */
  lemma StatusOverridesBody(a: Response, b: Response, toText: Js.Value -> string)
    requires a.status == b.status && a.ok == b.ok
    requires a.status == 401 || (a.ok && a.status == 204)
    ensures Classify(a, toText) == Classify(b, toText)
  {
  }

  class Client {
    /** `localStorage.getItem('admin_token')` */
    var token: Option<string>
    /** `window.location.href` */
    var location: string

    constructor (storedToken: Option<string>, href: string)
      ensures token == storedToken && location == href
    {
      token := storedToken;
      location := href;
    }

    /** `apiRequest(endpoint, method, data)`. Returns the request sent and
        the outcome. A 401 also forgets the token and goes to the login page;
        a network error is passed on unchanged. */
    method ApiRequest(env: Option<string>, endpoint: string, m: HttpMethod, data: Js.Value,
                      fetch: Request -> Result<Response>, toText: Js.Value -> string)
        returns (sent: Request, r: Result<Js.Value>)
      modifies this
      ensures sent == BuildRequest(env, endpoint, m, old(token), data)
      ensures fetch(sent).Failure? ==> r == Failure(fetch(sent).error)
      ensures fetch(sent).Success? ==> r == Classify(fetch(sent).value, toText)
      ensures fetch(sent).Success? && fetch(sent).value.status == 401 ==> token.None? && location == LoginPath
      ensures !(fetch(sent).Success? && fetch(sent).value.status == 401) ==> token == old(token) && location == old(location)
    {
      sent := BuildRequest(env, endpoint, m, token, data);
      var answer := fetch(sent);
      if answer.Failure? {
        r := Failure(answer.error);
        return;
      }
      var resp := answer.value;
      if resp.status == 401 {
        token := None;
        location := LoginPath;
      }
      r := Classify(resp, toText);
    }
  }

  /** `api.get(endpoint)` and `api.delete(endpoint)` pass no payload;
      `api.post`, `api.put` and `api.patch` pass theirs. */
  function Verb(m: HttpMethod, data: Js.Value): (r: Js.Value)
    ensures SendsBody(m) ==> r == data
    ensures !SendsBody(m) ==> r == Js.Undefined
  {
    if SendsBody(m) then data else Js.Undefined
  }

  /** Through the verb helpers a request carries a body exactly when the verb
      is `post`, `put` or `patch` and its data is truthy, and that body is the
      data. */
  lemma VerbBody(env: Option<string>, endpoint: string, m: HttpMethod, token: Option<string>, data: Js.Value)
    ensures BuildRequest(env, endpoint, m, token, Verb(m, data)).body.Some? <==> SendsBody(m) && Js.Truthy(data)
    ensures BuildRequest(env, endpoint, m, token, Verb(m, data)).body.Some? ==>
              BuildRequest(env, endpoint, m, token, Verb(m, data)).body.value == data
  {
    if !SendsBody(m) {
      assert !Js.Truthy(Verb(m, data));
    }
  }
}
