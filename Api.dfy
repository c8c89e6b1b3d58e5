/** The REST client (`ApiClient`): the session token it keeps in step with
    browser storage, the headers and URL of each request, and the rule that
    turns a response into a value or an error. The network call itself is a
    parameter: each request is handed the response it receives. */
module Api {
  import opened Types

  const TokenKey: string := "token"
  const DefaultBaseUrl: string := "/api"
  const FallbackErrorMessage: string := "An error occurred"
  const ContentType: string := "Content-Type"
  const JsonMediaType: string := "application/json"
  const Authorization: string := "Authorization"
  /** What reading `.token` of a missing payload throws; the exact text is the engine's. */
  const MissingPayloadMessage: string := "Cannot read properties of undefined (reading 'token')"

  // ---------------------------------------------------------------------------
  // Browser storage

  /** `localStorage`, as a string map. */
  class LocalStorage {
    var items: map<string, string>

    constructor (items: map<string, string>)
      ensures this.items == items
    {
      this.items := items;
    }
  }

  /** The storage after `setToken(t)`: the key holds a truthy token, and is
      removed for `null` and for the empty string. */
  function StoreToken(items: map<string, string>, t: Option<string>): (r: map<string, string>)
    ensures Truthy(t) ==> r == items[TokenKey := t.value]
    ensures !Truthy(t) ==> TokenKey !in r && r == items - {TokenKey}
  {
    if Truthy(t) then items[TokenKey := t.value] else items - {TokenKey}
  }

  /** What a client created later over the same storage starts with: a
      truthy token survives, while `null` and `""` both read back as `null`. */
  lemma TokenSurvivesReload(items: map<string, string>, t: Option<string>)
    ensures Lookup(StoreToken(items, t), TokenKey) == if Truthy(t) then t else None
  {
  }

  /** Storing a token touches no other key. */
  lemma StoreTokenKeepsOtherKeys(items: map<string, string>, t: Option<string>, k: string)
    requires k != TokenKey
    ensures Lookup(StoreToken(items, t), k) == Lookup(items, k)
  {
  }

  // ---------------------------------------------------------------------------
  // Endpoints and URLs

  /** `API_BASE_URL`: the configured URL, or "/api" when unset or empty. */
  function ApiBaseUrl(config: Option<string>): (base: string)
    ensures base != ""
    ensures Truthy(config) ==> base == config.value
    ensures !Truthy(config) ==> base == DefaultBaseUrl
  {
    if Truthy(config) then config.value else DefaultBaseUrl
  }

  datatype HttpMethod = Get | Post | Put | Delete

  /** Every call the client offers. */
  datatype Endpoint =
    | Login
    | Register
    | CurrentUser
    | Teams
    | Team(id: string)
    | CreateTeam
    | UpdateTeam(id: string)
    | DeleteTeam(id: string)
    | UpdateTeamScore(id: string)
    | JoinTeam(id: string)
    | LeaveTeam
    | GetLeaderboard
    | Achievements
    | AwardAchievement(id: string)

  const TeamsPrefix: string := "/teams/"

  predicate HasTeamId(e: Endpoint) {
    e.Team? || e.UpdateTeam? || e.DeleteTeam? || e.UpdateTeamScore? || e.JoinTeam? || e.AwardAchievement?
  }

  /** The suffix after the team id in a per-team path. */
  function TeamSuffix(e: Endpoint): string
    requires HasTeamId(e)
  {
    match e
    case UpdateTeamScore(_) => "/score"
    case JoinTeam(_) => "/join"
    case AwardAchievement(_) => "/achievements"
    case _ => ""
  }

  function PathOf(e: Endpoint): (p: string)
    ensures HasTeamId(e) ==> p == TeamsPrefix + e.id + TeamSuffix(e)
  {
    match e
    case Login => "/auth/login"
    case Register => "/auth/register"
    case CurrentUser => "/auth/me"
    case Teams => "/teams"
    case Team(id) => TeamsPrefix + id
    case CreateTeam => "/teams"
    case UpdateTeam(id) => TeamsPrefix + id
    case DeleteTeam(id) => TeamsPrefix + id
    case UpdateTeamScore(id) => TeamsPrefix + id + "/score"
    case JoinTeam(id) => TeamsPrefix + id + "/join"
    case LeaveTeam => "/teams/leave"
    case GetLeaderboard => "/leaderboard"
    case Achievements => "/achievements"
    case AwardAchievement(id) => TeamsPrefix + id + "/achievements"
  }

  /** The calls that change data on the server. */
  predicate ChangesData(e: Endpoint) {
    e.Login? || e.Register? || e.CreateTeam? || e.UpdateTeam? || e.DeleteTeam? ||
    e.UpdateTeamScore? || e.JoinTeam? || e.LeaveTeam? || e.AwardAchievement?
  }

  /** The HTTP method; calls that give none use `fetch`'s default, GET. Every
      call that changes data says otherwise: an update is a PUT, a deletion a
      DELETE, and the rest POST. */
  function MethodOf(e: Endpoint): (m: HttpMethod)
    ensures m == Get <==> !ChangesData(e)
    ensures m == Put <==> e.UpdateTeam?
    ensures m == Delete <==> e.DeleteTeam?
  {
    match e
    case Login => Post
    case Register => Post
    case CreateTeam => Post
    case UpdateTeam(_) => Put
    case DeleteTeam(_) => Delete
    case UpdateTeamScore(_) => Post
    case JoinTeam(_) => Post
    case LeaveTeam => Post
    case AwardAchievement(_) => Post
    case _ => Get
  }

  /** The URL a request goes to: the configured base, or "/api" when none is
      configured, followed by the endpoint's path; a per-team call names its
      team right after "/teams/". */
  function RequestUrl(config: Option<string>, e: Endpoint): (url: string)
    ensures Truthy(config) ==> url == config.value + PathOf(e)
    ensures !Truthy(config) ==> url == DefaultBaseUrl + PathOf(e)
    ensures e.Team? ==> url == ApiBaseUrl(config) + (TeamsPrefix + e.id)
    ensures HasTeamId(e) ==> url == ApiBaseUrl(config) + (TeamsPrefix + e.id + TeamSuffix(e))
  {
    ApiBaseUrl(config) + PathOf(e)
  }

  /** The team id can be read back from a per-team URL: two calls of the same
      kind reach the same URL only for the same team. */
  lemma {:induction false} TeamIdRecoverable(config: Option<string>, e: Endpoint)
    requires HasTeamId(e)
    ensures var url := RequestUrl(config, e);
      var start := |ApiBaseUrl(config)| + |TeamsPrefix|;
      start + |e.id| <= |url| && url[start..start + |e.id|] == e.id
  {
    var base := ApiBaseUrl(config);
    var url := RequestUrl(config, e);
    assert url == base + TeamsPrefix + e.id + TeamSuffix(e);
    var start := |base| + |TeamsPrefix|;
    assert url[start..start + |e.id|] == e.id;
  }

  lemma SameKindSameUrlSameTeam(config: Option<string>, e1: Endpoint, e2: Endpoint)
    requires HasTeamId(e1) && HasTeamId(e2) && TeamSuffix(e1) == TeamSuffix(e2)
    requires RequestUrl(config, e1) == RequestUrl(config, e2)
    ensures e1.id == e2.id
  {
    TeamIdRecoverable(config, e1);
    TeamIdRecoverable(config, e2);
    assert |e1.id| == |e2.id|;
  }

  // ---------------------------------------------------------------------------
  // Responses

  /** What `fetch` and `response.json()` yield: the HTTP ok flag and the envelope. */
  datatype Response<T> = Response(ok: bool, body: ApiResponse<T>)

  /** The message a failed request throws. */
  function ErrorMessage<T>(body: ApiResponse<T>): (m: string)
    ensures m != ""
    ensures Truthy(body.message) ==> m == body.message.value
    ensures !Truthy(body.message) ==> m == FallbackErrorMessage
  {
    if Truthy(body.message) then body.message.value else FallbackErrorMessage
  }

  /** The outcome of `request`: a non-ok response throws its message, an ok
      one returns the envelope's `data`, which may be undefined. */
  function Outcome<T>(r: Response<T>): (out: Result<Option<T>>)
    ensures out.Err? <==> !r.ok
    ensures out.Err? ==> out.message == ErrorMessage(r.body)
    ensures out.Ok? ==> out.value == r.body.data
  {
    if !r.ok then Err(ErrorMessage(r.body)) else Ok(r.body.data)
  }

  /** The envelope's `status` plays no part: only the HTTP ok flag decides. */
  lemma OutcomeIgnoresStatus<T>(r: Response<T>, s: Status)
    ensures Outcome(r) == Outcome(r.(body := r.body.(status := s)))
  {
  }

  /** An error envelope on a failed response surfaces its exact message. */
  lemma ErrorEnvelopeCarriesMessage<T>(r: Response<T>, m: string)
    requires !r.ok && r.body.message == Some(m) && m != ""
    ensures Outcome(r) == Err(m)
  {
  }

  /** An ok response whose envelope says "error" still succeeds. */
  lemma OkResponseWithErrorStatusSucceeds<T>(data: Option<T>, m: Option<string>)
    ensures Outcome(Response(true, ApiResponse(Error, data, m, None))) == Ok(data)
  {
  }

  /** `{user, token}`, the payload of login and register. */
  datatype AuthPayload = AuthPayload(user: UserRecord, token: string)

  // ---------------------------------------------------------------------------
  // The client

  class ApiClient {
    const storage: LocalStorage
    const baseUrl: string
    var token: Option<string>

    constructor (storage: LocalStorage, config: Option<string>)
      ensures this.storage == storage && baseUrl == ApiBaseUrl(config)
      ensures token == Lookup(storage.items, TokenKey)
    {
      this.storage := storage;
      baseUrl := ApiBaseUrl(config);
      token := Lookup(storage.items, TokenKey);
    }

    method SetToken(t: Option<string>)
      modifies this, storage
      ensures token == t
      ensures storage.items == StoreToken(old(storage.items), t)
    {
      token := t;
      if t.Some? && t.value != "" {
        storage.items := storage.items[TokenKey := t.value];
      } else {
        storage.items := storage.items - {TokenKey};
      }
    }

    method GetToken() returns (t: Option<string>)
      ensures t == token
    {
      t := token;
    }

    /** The headers of a request: JSON content type unless the caller gives
        one, the caller's headers, and a bearer token whenever the client
        holds a truthy one (overriding any the caller gave). */
    method Headers(caller: map<string, string>) returns (h: map<string, string>)
      ensures h.Keys == caller.Keys + {ContentType} + (if Truthy(token) then {Authorization} else {})
      ensures h[ContentType] == if ContentType in caller then caller[ContentType] else JsonMediaType
      ensures Truthy(token) ==> h[Authorization] == "Bearer " + token.value
      ensures forall k :: k in caller && !(k == Authorization && Truthy(token)) ==> h[k] == caller[k]
    {
      h := map[ContentType := JsonMediaType] + caller;
      if token.Some? && token.value != "" {
        h := h[Authorization := "Bearer " + token.value];
      }
    }

    /** `request`: where it goes, what it sends, and what it returns or
        throws for the response it gets. */
    method Request<T>(e: Endpoint, caller: map<string, string>, response: Response<T>)
      returns (url: string, method_: HttpMethod, headers: map<string, string>, out: Result<Option<T>>)
      ensures url == baseUrl + PathOf(e) && method_ == MethodOf(e)
      ensures headers.Keys == caller.Keys + {ContentType} + (if Truthy(token) then {Authorization} else {})
      ensures Authorization in headers <==> Truthy(token) || Authorization in caller
      ensures Truthy(token) ==> headers[Authorization] == "Bearer " + token.value
      ensures headers[ContentType] == if ContentType in caller then caller[ContentType] else JsonMediaType
      ensures forall k :: k in caller && !(k == Authorization && Truthy(token)) ==> headers[k] == caller[k]
      ensures out == Outcome(response)
    {
      headers := Headers(caller);
      url := baseUrl + PathOf(e);
      method_ := MethodOf(e);
      if !response.ok {
        var message := if response.body.message.Some? && response.body.message.value != ""
                       then response.body.message.value else FallbackErrorMessage;
        out := Err(message);
      } else {
        out := Ok(response.body.data);
      }
    }

    /** Login and register: on success the returned token becomes the
        session token; a failure, or a success without a payload, throws and
        leaves the token as it was. */
    method Authenticate(e: Endpoint, response: Response<AuthPayload>) returns (r: Result<AuthPayload>)
      requires e == Endpoint.Login || e == Endpoint.Register
      modifies this, storage
      ensures Outcome(response).Err? ==> r == Err(Outcome(response).message)
      ensures Outcome(response) == Ok(None) ==> r == Err(MissingPayloadMessage)
      ensures r.Err? ==> token == old(token) && storage.items == old(storage.items)
      ensures Outcome(response).Ok? && Outcome(response).value.Some? ==>
        var payload := Outcome(response).value.value;
        && r == Ok(payload)
        && token == Some(payload.token)
        && storage.items == StoreToken(old(storage.items), Some(payload.token))
    {
      var _, _, _, out := Request(e, map[], response);
      match out
      case Err(m) =>
        r := Err(m);
      case Ok(None) =>
        r := Err(MissingPayloadMessage);
      case Ok(Some(payload)) =>
        SetToken(Some(payload.token));
        r := Ok(payload);
    }

    /** `login(email, password)`; the credentials travel in the request body,
        whose encoding is not modelled. */
    method Login(email: string, password: string, response: Response<AuthPayload>) returns (r: Result<AuthPayload>)
      modifies this, storage
      ensures r.Err? ==> token == old(token) && storage.items == old(storage.items)
      ensures r.Err? <==> !(Outcome(response).Ok? && Outcome(response).value.Some?)
      ensures r.Ok? ==> r.value == response.body.data.value && token == Some(r.value.token)
      ensures r.Ok? ==> storage.items == StoreToken(old(storage.items), Some(r.value.token))
    {
      r := Authenticate(Endpoint.Login, response);
    }

    /** `register(email, password, name)`: the same token effects as login. */
    method Register(email: string, password: string, name: string, response: Response<AuthPayload>)
      returns (r: Result<AuthPayload>)
      modifies this, storage
      ensures r.Err? ==> token == old(token) && storage.items == old(storage.items)
      ensures r.Err? <==> !(Outcome(response).Ok? && Outcome(response).value.Some?)
      ensures r.Ok? ==> r.value == response.body.data.value && token == Some(r.value.token)
      ensures r.Ok? ==> storage.items == StoreToken(old(storage.items), Some(r.value.token))
    {
      r := Authenticate(Endpoint.Register, response);
    }

    method Logout()
      modifies this, storage
      ensures token.None? && TokenKey !in storage.items
      ensures storage.items == old(storage.items) - {TokenKey}
    {
      SetToken(None);
    }
  }
}
