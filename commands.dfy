/**
 * The backend's decision logic behind its VRChat API commands: the fixed
 * worlds for the placeholder locations, the world cache, how a login answer
 * is classified, how a one-time-password answer maps to a result, when the
 * session counts as logged in, and how the debug console's request method is
 * chosen. An HTTP exchange is an abstract response: its status, its text and
 * the JSON value the text decodes to, if any.
 */
module Commands {
  import opened Basics
  import Strings

  // ----- Responses and errors -----

  /** A decoded JSON value. */
  datatype Json =
    | JNull
    | JBool(b: bool)
    | JNumber(n: int)
    | JString(s: string)
    | JArray(items: seq<Json>)
    | JObject(fields: map<string, Json>)

  /** `value[key]`: the member, or `null` when there is none or the value is no object. */
  function Get(j: Json, key: string): (r: Json)
    ensures r != JNull ==> j.JObject? && key in j.fields && r == j.fields[key]
  {
    if j.JObject? && key in j.fields then j.fields[key] else JNull
  }

  /** A response: status code, body text, and the body decoded as JSON (`None` when it is not JSON). */
  datatype HttpResponse = HttpResponse(status: int, text: string, json: Option<Json>)

  const OK: int := 200
  const BadRequest: int := 400
  const Unauthorized: int := 401

  /** The error every command returns to the front end. */
  datatype RustError = Unrecoverable(message: string)

  /**
   * How a command ends: with a value, with an error, or by panicking on an
   * `unwrap` of a body that is not the JSON it expects.
   */
  datatype Outcome<+T> = Done(value: T) | Failed(error: RustError) | Panicked

  /** Decimal digits of `n`. */
  function Digits(n: nat): (s: string)
    ensures |s| >= 1 && forall k :: 0 <= k < |s| ==> '0' <= s[k] <= '9'
  {
    var d := [(n % 10) as char + '0'];
    if n < 10 then d else Digits(n / 10) + d
  }

  /** The status code as it is displayed in an error (its reason phrase is not modelled). */
  function StatusText(status: int): string
  {
    if status < 0 then "-" + Digits(-status) else Digits(status)
  }

  /** `Err(res.status().into())`. */
  function StatusError(status: int): RustError
  {
    Unrecoverable(StatusText(status))
  }

  // ----- Login -----

  /**
   * `login`: an OK answer that asks for a second factor is classified by the
   * factors it lists; any other OK answer is returned as it is; 401 is a failed login.
   */
  function Login(res: Result<HttpResponse>): (r: Outcome<string>)
    ensures res.Err? ==> r == Failed(Unrecoverable(res.error))
    ensures res.Ok? && res.value.status == Unauthorized ==> r == Failed(Unrecoverable("errors.loginFail"))
    ensures res.Ok? && res.value.status !in {OK, Unauthorized} ==> r == Failed(StatusError(res.value.status))
    ensures res.Ok? && res.value.status == OK ==> (r.Panicked? <==> res.value.json.None?)
    ensures r == Done("emailOtp") <==>
              res.Ok? && res.value.status == OK && res.value.json.Some?
              && ((Get(res.value.json.value, "requiresTwoFactorAuth").JArray?
                   && JString("emailOtp") in Get(res.value.json.value, "requiresTwoFactorAuth").items)
                  || (!Get(res.value.json.value, "requiresTwoFactorAuth").JArray? && res.value.text == "emailOtp"))
    ensures (&& res.Ok? && res.value.status == OK && res.value.json.Some?
             && !Get(res.value.json.value, "requiresTwoFactorAuth").JArray?)
            ==> r == Done(res.value.text)
    ensures (&& res.Ok? && res.value.status == OK && res.value.json.Some?
             && Get(res.value.json.value, "requiresTwoFactorAuth").JArray?
             && JString("emailOtp") !in Get(res.value.json.value, "requiresTwoFactorAuth").items)
            ==> r == Done("totp")
  {
    match res
    case Err(e) => Failed(Unrecoverable(e))
    case Ok(r) =>
      if r.status == OK then
        match r.json
        case None => Panicked
        case Some(j) =>
          var factors := Get(j, "requiresTwoFactorAuth");
          if factors.JArray? then
            if JString("emailOtp") in factors.items then Done("emailOtp") else Done("totp")
          else Done(r.text)
      else if r.status == Unauthorized then Failed(Unrecoverable("errors.loginFail"))
      else Failed(StatusError(r.status))
  }

  /** An answer that lists second factors never reaches the front end as its raw text. */
  lemma LoginSecondFactor(r: HttpResponse, j: Json)
    requires r.status == OK && r.json == Some(j) && Get(j, "requiresTwoFactorAuth").JArray?
    ensures Login(Ok(r)) == Done("emailOtp") || Login(Ok(r)) == Done("totp")
    ensures Login(Ok(r)) == Done("totp") <==> JString("emailOtp") !in Get(j, "requiresTwoFactorAuth").items
  {
  }

  // ----- One-time passwords -----

  /**
   * `otp_verified_check`, after an email or authenticator code was posted: `r`
   * is that answer, `userInfo` the answer to the follow-up user request and
   * `saveCookies` the outcome of saving the session under a user id.
   */
  function OtpVerifiedCheck(r: HttpResponse, userInfo: Result<HttpResponse>,
                            saveCookies: string -> Result<()>): (o: Outcome<bool>)
    ensures r.status in {Unauthorized, BadRequest} ==> o == Failed(Unrecoverable("errors.2faFail"))
    ensures r.status !in {OK, Unauthorized, BadRequest} ==> o == Failed(StatusError(r.status))
    ensures o == Done(true) ==> r.status == OK && r.json.Some? && Get(r.json.value, "verified") == JBool(true)
    ensures r.status == OK && r.json.Some? && Get(r.json.value, "verified") != JBool(true) ==> o == Done(false)
  {
    if r.status == OK then
      match r.json
      case None => Panicked
      case Some(j) =>
        if Get(j, "verified") == JBool(true) then
          match userInfo
          case Err(_) => Panicked
          case Ok(info) =>
            if info.status == OK then
              match info.json
              case None => Panicked
              case Some(rj) =>
                if Get(rj, "id").JString? then
                  match saveCookies(Get(rj, "id").s)
                  case Ok(_) => Done(true)
                  case Err(e) => Failed(Unrecoverable(e))
                else Panicked
            else Failed(Unrecoverable("errors.2faFail"))
        else Done(false)
    else if r.status == Unauthorized || r.status == BadRequest then Failed(Unrecoverable("errors.2faFail"))
    else Failed(StatusError(r.status))
  }

  /** A verified code whose follow-up user request fails is reported as a failed second factor. */
  lemma OtpFollowUpFails(r: HttpResponse, info: HttpResponse, saveCookies: string -> Result<()>)
    requires r.status == OK && r.json.Some? && Get(r.json.value, "verified") == JBool(true)
    requires info.status != OK
    ensures OtpVerifiedCheck(r, Ok(info), saveCookies) == Failed(Unrecoverable("errors.2faFail"))
  {
  }

  /** A verified code with a readable user id succeeds exactly when the session is saved. */
  lemma OtpSavesSession(r: HttpResponse, info: HttpResponse, id: string, saveCookies: string -> Result<()>)
    requires r.status == OK && r.json.Some? && Get(r.json.value, "verified") == JBool(true)
    requires info.status == OK && info.json.Some? && Get(info.json.value, "id") == JString(id)
    ensures OtpVerifiedCheck(r, Ok(info), saveCookies) == Done(true) <==> saveCookies(id).Ok?
  {
  }

  // ----- Session check -----

  /** What `verify_auth_token` answers. */
  function VerifyOutcome(res: Result<HttpResponse>): (o: Outcome<bool>)
    ensures o == Done(true) <==>
              res.Ok? && res.value.status == OK && res.value.json.Some? && Get(res.value.json.value, "ok") == JBool(true)
    ensures res.Ok? && res.value.status == Unauthorized ==> o == Failed(Unrecoverable("errors.unauthorized"))
    ensures res.Ok? && res.value.status == OK && res.value.json.Some? ==> o.Done?
  {
    match res
    case Err(e) => Failed(Unrecoverable(e))
    case Ok(r) =>
      if r.status == OK then
        match r.json
        case None => Panicked
        case Some(j) => if Get(j, "ok") == JBool(true) then Done(true) else Done(false)
      else if r.status == Unauthorized then Failed(Unrecoverable("errors.unauthorized"))
      else Failed(StatusError(r.status))
  }

  // ----- Worlds -----

  /** The world record the cache holds. */
  datatype World = World(id: string, name: string, thumbnailImageUrl: string)

  /** What `serde_json::from_str::<World>` accepts: an object with the three string fields, or an array of them in order. */
  function WorldOf(j: Json): (w: Option<World>)
    ensures w.Some? && j.JObject? ==> Get(j, "id") == JString(w.value.id)
  {
    match j
    case JObject(f) =>
      if Get(j, "id").JString? && Get(j, "name").JString? && Get(j, "thumbnailImageUrl").JString?
      then Some(World(Get(j, "id").s, Get(j, "name").s, Get(j, "thumbnailImageUrl").s))
      else None
    case JArray(items) =>
      if |items| == 3 && items[0].JString? && items[1].JString? && items[2].JString?
      then Some(World(items[0].s, items[1].s, items[2].s))
      else None
    case _ => None
  }

  const PrivateWorldImage: string := "https://assets.vrchat.com/www/images/user-location-private-world.png"
  const OfflineImage: string := "https://assets.vrchat.com/www/images/user-location-offline.png"

  /** The fixed record for a placeholder location, if `worldid` is one. */
  function SentinelWorld(worldid: string): (w: Option<World>)
    ensures w.Some? <==> worldid in {"private", "web_or_mobile", "offline", "traveling"}
    ensures w.Some? ==> w.value.id == worldid && w.value.name != ""
  {
    if worldid == "private" then Some(World("private", "In a private world", PrivateWorldImage))
    else if worldid == "web_or_mobile" then Some(World("web_or_mobile", "On Web or Mobile", PrivateWorldImage))
    else if worldid == "offline" then Some(World("offline", "Offline", OfflineImage))
    else if worldid == "traveling" then Some(World("traveling", "In a traveling world", PrivateWorldImage))
    else None
  }

  /** The text `get_world_by_id` returns: a record it serialises itself, or the API's own text. */
  datatype WorldReply = Serialized(world: World) | Raw(text: string)

  /** One lookup: its answer, the cache afterwards, and whether the API was asked. */
  datatype Lookup = Lookup(reply: Outcome<WorldReply>, worlds: map<string, World>, requested: bool)

  /** `get_world_by_id` over the cache `worlds`, with `fetch` what the API would answer. */
  function WorldLookup(worlds: map<string, World>, worldid: string, fetch: Result<HttpResponse>): (l: Lookup)
    ensures SentinelWorld(worldid).Some? ==> l == Lookup(Done(Serialized(SentinelWorld(worldid).value)), worlds, false)
    ensures SentinelWorld(worldid).None? && worldid in worlds ==> l == Lookup(Done(Serialized(worlds[worldid])), worlds, false)
    ensures l.requested <==> SentinelWorld(worldid).None? && worldid !in worlds
    ensures l.worlds == worlds || (l.requested && l.reply.Done? && l.worlds.Keys == worlds.Keys + {worldid})
  {
    if SentinelWorld(worldid).Some? then Lookup(Done(Serialized(SentinelWorld(worldid).value)), worlds, false)
    else if worldid in worlds then Lookup(Done(Serialized(worlds[worldid])), worlds, false)
    else
      match fetch
      case Err(e) => Lookup(Failed(Unrecoverable(e)), worlds, true)
      case Ok(res) =>
        if res.status == OK then
          var parsed := if res.json.Some? then WorldOf(res.json.value) else None;
          var cache := if parsed.Some? then worlds[worldid := parsed.value] else worlds;
          Lookup(Done(Raw(res.text)), cache, true)
        else Lookup(Failed(Unrecoverable("Failed...")), worlds, true)
  }

  /** A non-OK answer is an error and leaves the cache as it was. */
  lemma FailedFetchKeepsCache(worlds: map<string, World>, worldid: string, res: HttpResponse)
    requires SentinelWorld(worldid).None? && worldid !in worlds && res.status != OK
    ensures WorldLookup(worlds, worldid, Ok(res)) == Lookup(Failed(Unrecoverable("Failed...")), worlds, true)
  {
  }

  /** An OK answer returns its text whether or not it is a world; only a world is cached. */
  lemma OkFetchReturnsText(worlds: map<string, World>, worldid: string, res: HttpResponse)
    requires SentinelWorld(worldid).None? && worldid !in worlds && res.status == OK
    ensures WorldLookup(worlds, worldid, Ok(res)).reply == Done(Raw(res.text))
    ensures var parsed := if res.json.Some? then WorldOf(res.json.value) else None;
            WorldLookup(worlds, worldid, Ok(res)).worlds == if parsed.Some? then worlds[worldid := parsed.value] else worlds
  {
  }

  /**
   * A world fetched once is served from the cache from then on: the second
   * lookup asks nothing and answers the parsed record, whatever the API would say.
   */
  lemma FetchedOnce(worlds: map<string, World>, worldid: string, res: HttpResponse, later: Result<HttpResponse>)
    requires SentinelWorld(worldid).None? && worldid !in worlds
    requires res.status == OK && res.json.Some? && WorldOf(res.json.value).Some?
    ensures var first := WorldLookup(worlds, worldid, Ok(res));
            WorldLookup(first.worlds, worldid, later) == Lookup(Done(Serialized(WorldOf(res.json.value).value)), first.worlds, false)
  {
  }

  /** Lookups of other ids neither see nor change this id's cache entry. */
  lemma LookupKeepsOtherEntries(worlds: map<string, World>, worldid: string, other: string, fetch: Result<HttpResponse>)
    requires other != worldid
    ensures var l := WorldLookup(worlds, worldid, fetch);
            (other in l.worlds <==> other in worlds) && (other in worlds ==> l.worlds[other] == worlds[other])
  {
  }

  // ----- The debug console -----

  datatype HttpMethod = GET | POST | PUT | DELETE | PATCH

  function MethodName(m: HttpMethod): string
  {
    match m
    case GET => "GET"
    case POST => "POST"
    case PUT => "PUT"
    case DELETE => "DELETE"
    case PATCH => "PATCH"
  }

  /** The method `name` names, compared after upper-casing it. */
  function MethodOf(name: string): (m: Option<HttpMethod>)
    ensures m.Some? ==> Strings.Upper(name) == MethodName(m.value)
    ensures m.None? ==> forall x: HttpMethod :: Strings.Upper(name) != MethodName(x)
  {
    match Strings.Upper(name)
    case "GET" => Some(GET)
    case "POST" => Some(POST)
    case "PUT" => Some(PUT)
    case "DELETE" => Some(DELETE)
    case "PATCH" => Some(PATCH)
    case _ => None
  }

  const ApiBaseUrl: string := "https://api.vrchat.cloud/api"

  /** The console's request: a method name, a path under the API, and an optional JSON body. */
  datatype DebugRequest = DebugRequest(httpMethod: string, endpoint: string, data: Option<string>)

  /** The request that is sent. */
  datatype HttpRequest = HttpRequest(httpMethod: HttpMethod, url: string, body: Option<Json>)

  /** The command's answer to the front end. */
  datatype ApiResponse = ApiResponse(status: string, data: string)

  /** Building the request: the method first, then the body, which must be JSON (`parseJson` is the decoder). */
  function BuildRequest(request: DebugRequest, parseJson: string -> Result<Json>): (r: Result<HttpRequest>)
    ensures MethodOf(request.httpMethod).None? ==> r == Err("Unsupported HTTP method")
    ensures r.Ok? ==> Some(r.value.httpMethod) == MethodOf(request.httpMethod) && r.value.url == ApiBaseUrl + request.endpoint
    ensures r.Ok? ==> (r.value.body.None? <==> request.data.None?)
  {
    match MethodOf(request.httpMethod)
    case None => Err("Unsupported HTTP method")
    case Some(m) =>
      match request.data
      case None => Ok(HttpRequest(m, ApiBaseUrl + request.endpoint, None))
      case Some(data) =>
        match parseJson(data)
        case Err(e) => Err("Invalid JSON data: " + e)
        case Ok(j) => Ok(HttpRequest(m, ApiBaseUrl + request.endpoint, Some(j)))
  }

  /** `debug_api_request`, with `send` the network. */
  function DebugApiRequest(request: DebugRequest, parseJson: string -> Result<Json>,
                           send: HttpRequest -> Result<HttpResponse>): (o: Outcome<ApiResponse>)
    ensures BuildRequest(request, parseJson).Err? ==> o == Failed(Unrecoverable(BuildRequest(request, parseJson).error))
    ensures o.Done? ==> o.value.status in {"ok", "error"}
    ensures var b := BuildRequest(request, parseJson);
            b.Ok? && send(b.value).Err? ==> o == Failed(Unrecoverable(send(b.value).error))
    ensures var b := BuildRequest(request, parseJson);
            b.Ok? && send(b.value).Ok? && send(b.value).value.status == OK ==> o == Done(ApiResponse("ok", send(b.value).value.text))
    ensures o.Done? && o.value.status == "ok" ==> BuildRequest(request, parseJson).Ok?
  {
    match BuildRequest(request, parseJson)
    case Err(e) => Failed(Unrecoverable(e))
    case Ok(req) =>
      match send(req)
      case Err(e) => Failed(Unrecoverable(e))
      case Ok(res) =>
        if res.status == OK then Done(ApiResponse("ok", res.text))
        else Done(ApiResponse("error", "Request failed with status: " + StatusText(res.status)))
  }

  /** The method is matched without regard to ASCII case. */
  lemma {:induction false} UpperLower(s: string)
    ensures Strings.Upper(Strings.Lower(s)) == Strings.Upper(s)
    decreases |s|
  {
    if s != [] {
      UpperLower(s[1..]);
      assert Strings.Lower(s) == [Strings.LowerChar(s[0])] + Strings.Lower(s[1..]);
      assert Strings.Upper(s) == [Strings.UpperChar(s[0])] + Strings.Upper(s[1..]);
      assert Strings.Upper(Strings.Lower(s))
          == [Strings.UpperChar(Strings.LowerChar(s[0]))] + Strings.Upper(Strings.Lower(s)[1..]);
    }
  }

  lemma MethodCaseInsensitive(name: string)
    ensures MethodOf(Strings.Lower(name)) == MethodOf(name)
  {
    UpperLower(name);
  }

  /** Every method name, in any case, selects its method. */
  lemma MethodRoundTrip(m: HttpMethod)
    ensures MethodOf(MethodName(m)) == Some(m)
    ensures MethodOf(Strings.Lower(MethodName(m))) == Some(m)
  {
    UpperFixed(MethodName(m));
    MethodCaseInsensitive(MethodName(m));
  }

  lemma {:induction false} UpperFixed(s: string)
    requires forall k :: 0 <= k < |s| ==> 'A' <= s[k] <= 'Z'
    ensures Strings.Upper(s) == s
    decreases |s|
  {
    if s != [] {
      UpperFixed(s[1..]);
      assert Strings.Upper(s) == [Strings.UpperChar(s[0])] + Strings.Upper(s[1..]);
      assert s == [s[0]] + s[1..];
    }
  }

  /** An unknown method or a body that is not JSON fails before anything is sent. */
  lemma RejectedBeforeSending(request: DebugRequest, parseJson: string -> Result<Json>,
                              send1: HttpRequest -> Result<HttpResponse>, send2: HttpRequest -> Result<HttpResponse>)
    requires BuildRequest(request, parseJson).Err?
    ensures DebugApiRequest(request, parseJson, send1) == DebugApiRequest(request, parseJson, send2)
  {
  }

  /** A non-OK answer is still a successful command, carrying the status. */
  lemma DebugNonOk(request: DebugRequest, parseJson: string -> Result<Json>,
                   send: HttpRequest -> Result<HttpResponse>)
    requires BuildRequest(request, parseJson).Ok?
    requires var r := send(BuildRequest(request, parseJson).value); r.Ok? && r.value.status != OK
    ensures DebugApiRequest(request, parseJson, send).Done?
    ensures DebugApiRequest(request, parseJson, send).value.status == "error"
  {
  }

  // ----- The shared state -----

  /** The backend's state: the login flag and the world cache. */
  class AppState {
    var isLogin: bool
    var worlds: map<string, World>
    /** The world ids fetched from the API, in order. */
    ghost var fetched: seq<string>

    constructor()
      ensures !isLogin && worlds == map[] && fetched == []
    {
      isLogin := false;
      worlds := map[];
      fetched := [];
    }

    /** `insert_world`. */
    method InsertWorld(worldId: string, world: World)
      modifies this
      ensures worlds == old(worlds)[worldId := world]
      ensures isLogin == old(isLogin) && fetched == old(fetched)
    {
      worlds := worlds[worldId := world];
    }

    /** `get_world`. */
    method GetWorld(worldId: string) returns (world: Option<World>)
      ensures world.Some? <==> worldId in worlds
      ensures world.Some? ==> world.value == worlds[worldId]
    {
      if worldId in worlds {
        world := Some(worlds[worldId]);
      } else {
        world := None;
      }
    }

    /** `get_world_by_id`, with `fetch` what the API answers if it is asked. */
    method GetWorldById(worldid: string, fetch: Result<HttpResponse>) returns (reply: Outcome<WorldReply>)
      modifies this
      ensures var l := WorldLookup(old(worlds), worldid, fetch);
              reply == l.reply && worlds == l.worlds
              && fetched == old(fetched) + (if l.requested then [worldid] else [])
      ensures isLogin == old(isLogin)
    {
      var sentinel := SentinelWorld(worldid);
      if sentinel.Some? {
        return Done(Serialized(sentinel.value));
      }
      var world := GetWorld(worldid);
      match world {
        case Some(result) =>
          return Done(Serialized(result));
        case None =>
          fetched := fetched + [worldid];
          if fetch.Err? {
            return Failed(Unrecoverable(fetch.error));
          }
          var res := fetch.value;
          if res.status == OK {
            var json := if res.json.Some? then WorldOf(res.json.value) else None;
            if json.Some? {
              InsertWorld(worldid, json.value);
            }
            reply := Done(Raw(res.text));
          } else {
            reply := Failed(Unrecoverable("Failed..."));
          }
      }
    }

    /** `verify_auth_token`: the login flag is set exactly when the API answers `ok: true`, and never cleared. */
    method VerifyAuthToken(res: Result<HttpResponse>) returns (outcome: Outcome<bool>)
      modifies this
      ensures outcome == VerifyOutcome(res)
      ensures isLogin == (old(isLogin) || outcome == Done(true))
      ensures worlds == old(worlds) && fetched == old(fetched)
    {
      outcome := VerifyOutcome(res);
      if outcome == Done(true) {
        isLogin := true;
      }
    }
  }
}
