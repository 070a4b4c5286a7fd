/**
 * `OAuthHandler`: links the device to an account through an OAuth provider.
 * It memoises the provider parameters, runs the web flow, trades the code
 * for a token, and then resolves a one-shot profile slot that
 * `getProfileInfo` waits on.
 *
 * The web flow is external: its outcome (token data, or the provider's
 * error) is an input. The profile client is the record it is built from.
 */
module OAuth {
  import opened Responses

  /** The profile client built from `parameters.profile_uri` and `response.access_token`. */
  datatype ProfileClient = ProfileClient(serverURL: Option<string>, token: Option<string>)

  /** The observable steps of linking, in the order they must happen. */
  datatype Event =
    | ParamsFetched
    | WebFlowLaunched(parameters: Json)
    | CodeTraded(tokenData: Json)
    | ProfileResolved(client: ProfileClient)

  function Stage(e: Event): nat {
    match e
    case ParamsFetched => 0
    case WebFlowLaunched(_) => 1
    case CodeTraded(_) => 2
    case ProfileResolved(_) => 3
  }

  /** Each stage happens at most once and strictly after every earlier stage. */
  predicate Sequenced(events: seq<Event>) {
    forall i, j :: 0 <= i < j < |events| ==> Stage(events[i]) < Stage(events[j])
  }

  /** Why linking fails; none of these is caught inside the handler. */
  datatype LoginError =
    | ParamsError(params: HttpError)
    | WebFlowError(reason: Json)
    | TradeError(trade: HttpError)
    | NullMemberAccess   // reading `profile_uri` or `access_token` of a null body throws

  /** One `getOAuthParams` call: its result, the cached parameters afterwards, and whether it asked the backend. */
  datatype ParamsStep = ParamsStep(result: Result<Json, HttpError>, cache: Json, requested: bool)

  /** `getOAuthParams` with `cached` in the field; `response` is the backend's answer if it is asked. */
  function FetchParams(cached: Json, response: Response): (step: ParamsStep)
    ensures step.requested <==> !Truthy(cached)
    ensures !step.requested ==> step.result == Ok(cached) && step.cache == cached
    ensures step.cache != cached ==> step.requested && IsSuccess(response.status) && step.cache == response.json
    ensures step.result.Ok? ==> step.result.value == step.cache
    ensures step.requested && IsSuccess(response.status) ==>
      step.result == Ok(response.json) && step.cache == response.json
    ensures step.requested && !IsSuccess(response.status) ==>
      step.result == Err(HttpError(response.status, response.json)) && step.cache == cached
    ensures step.result.Err? ==>
      step.requested && !IsSuccess(response.status) && step.cache == cached &&
      step.result.error == HttpError(response.status, response.json)
  {
    if Truthy(cached) then ParamsStep(Ok(cached), cached, false)
    else match SettleJson(response)
      case Ok(json) => ParamsStep(Ok(json), json, true)
      case Err(e) => ParamsStep(Err(e), cached, true)
  }

  /** The cached parameters and the number of requests after successive `getOAuthParams` calls. */
  datatype ParamsCalls = ParamsCalls(cache: Json, requests: nat)

  /** Calls `getOAuthParams` once per response; the i-th call, if it asks, is answered by `responses[i]`. */
  function FetchParamsRepeatedly(cached: Json, responses: seq<Response>): (calls: ParamsCalls)
    ensures calls.requests <= |responses|
    ensures Truthy(calls.cache) ==> Truthy(cached) || calls.requests >= 1
    decreases |responses|
  {
    if responses == [] then ParamsCalls(cached, 0)
    else
      var step := FetchParams(cached, responses[0]);
      var rest := FetchParamsRepeatedly(step.cache, responses[1..]);
      ParamsCalls(rest.cache, rest.requests + (if step.requested then 1 else 0))
  }

  /** Parameters already cached are reused by every later call: no request, no change. */
  lemma {:induction false} CachedParamsNeverRefetched(cached: Json, responses: seq<Response>)
    requires Truthy(cached)
    ensures FetchParamsRepeatedly(cached, responses) == ParamsCalls(cached, 0)
  {
    if responses != [] {
      CachedParamsNeverRefetched(cached, responses[1..]);
    }
  }

  /**
   * Starting from an empty cache, calls keep asking the backend until the
   * first 2xx response with a truthy body, and never again afterwards: that
   * is i + 1 requests in all, and that body stays cached.
   */
  lemma {:induction false} ParamsFetchedUntilFirstSuccess(cached: Json, responses: seq<Response>, i: nat)
    requires !Truthy(cached)
    requires i < |responses| && IsSuccess(responses[i].status) && Truthy(responses[i].json)
    requires forall j :: 0 <= j < i ==> !(IsSuccess(responses[j].status) && Truthy(responses[j].json))
    ensures FetchParamsRepeatedly(cached, responses) == ParamsCalls(responses[i].json, i + 1)
  {
    var step := FetchParams(cached, responses[0]);
    if i == 0 {
      CachedParamsNeverRefetched(step.cache, responses[1..]);
    } else {
      assert !Truthy(step.cache);
      ParamsFetchedUntilFirstSuccess(step.cache, responses[1..], i - 1);
    }
  }

  /** One `logInWithParams` run: its result, the steps it took and the client it resolves the slot with. */
  datatype LoginStep = LoginStep(result: Result<Json, LoginError>, events: seq<Event>, resolvedWith: Option<ProfileClient>)

  /**
   * `logInWithParams(parameters)` given the web flow's outcome and the
   * backend's answer to the token trade.
   */
  function CompleteLogin(parameters: Json, flow: Result<Json, Json>, trade: Response): (step: LoginStep)
    ensures Sequenced(step.events)
    ensures |step.events| >= 1 && step.events[0] == WebFlowLaunched(parameters)
    // a flow error stops everything before the trade
    ensures flow.Err? ==> step.result == Err(WebFlowError(flow.error)) && |step.events| == 1
    // the trade is requested exactly when the flow completed, with its token data
    ensures flow.Ok? ==> |step.events| >= 2 && step.events[1] == CodeTraded(flow.value)
    ensures flow.Ok? && !IsSuccess(trade.status) ==>
      step.result == Err(TradeError(HttpError(trade.status, trade.json)))
    // a completed flow and a 2xx trade resolve the slot from the parameters and the token,
    // unless one of the two bodies is null, which throws
    ensures flow.Ok? && IsSuccess(trade.status) && parameters.Object? && trade.json.Object? ==>
      step.result == Ok(trade.json) &&
      step.resolvedWith == Some(ProfileClient(Member(parameters, "profile_uri"), Member(trade.json, "access_token")))
    ensures flow.Ok? && IsSuccess(trade.status) && (parameters.Null? || trade.json.Null?) ==>
      step.result == Err(NullMemberAccess) && step.resolvedWith == None
    // a failure after the flow completed ends the run at the trade
    ensures flow.Ok? && step.result.Err? ==> step.events == [WebFlowLaunched(parameters), CodeTraded(flow.value)]
    // the slot is resolved exactly on success, after the trade, from the parameters and the token
    ensures step.resolvedWith.Some? <==> step.result.Ok?
    ensures step.result.Ok? ==>
      flow.Ok? && IsSuccess(trade.status) && step.result.value == trade.json &&
      parameters.Object? && trade.json.Object? &&
      step.resolvedWith.value == ProfileClient(Member(parameters, "profile_uri"), Member(trade.json, "access_token")) &&
      step.events == [WebFlowLaunched(parameters), CodeTraded(flow.value), ProfileResolved(step.resolvedWith.value)]
  {
    var launched := [WebFlowLaunched(parameters)];
    match flow
    case Err(reason) => LoginStep(Err(WebFlowError(reason)), launched, None)
    case Ok(tokenData) =>
      var traded := launched + [CodeTraded(tokenData)];
      match SettleJson(trade)
      case Err(e) => LoginStep(Err(TradeError(e)), traded, None)
      case Ok(response) =>
        if parameters.Null? || response.Null? then LoginStep(Err(NullMemberAccess), traded, None)
        else
          var client := ProfileClient(Member(parameters, "profile_uri"), Member(response, "access_token"));
          LoginStep(Ok(response), traded + [ProfileResolved(client)], Some(client))
  }

  /** `logIn`: the parameters (cached or fetched) and then `logInWithParams` with them. */
  function LogInRun(cached: Json, paramsResponse: Response, flow: Result<Json, Json>, trade: Response): (step: LoginStep)
    ensures Sequenced(step.events)
    ensures (|step.events| >= 1 && step.events[0] == ParamsFetched) <==> !Truthy(cached)
    // no web flow unless the parameters were obtained
    ensures (exists p :: WebFlowLaunched(p) in step.events) <==> FetchParams(cached, paramsResponse).result.Ok?
    // and then `logInWithParams` runs with exactly the parameters obtained
    ensures FetchParams(cached, paramsResponse).result.Ok? ==>
      var login := CompleteLogin(FetchParams(cached, paramsResponse).result.value, flow, trade);
      step.result == login.result && step.resolvedWith == login.resolvedWith &&
      step.events == (if Truthy(cached) then [] else [ParamsFetched]) + login.events
    ensures FetchParams(cached, paramsResponse).result.Err? ==>
      step.result == Err(ParamsError(FetchParams(cached, paramsResponse).result.error)) && step.resolvedWith == None &&
      step.events == [ParamsFetched]
    ensures step.resolvedWith.Some? ==>
      step.result.Ok? && flow.Ok? && IsSuccess(trade.status) && ProfileResolved(step.resolvedWith.value) in step.events
  {
    var p := FetchParams(cached, paramsResponse);
    var fetched := if p.requested then [ParamsFetched] else [];
    match p.result
    case Err(e) => LoginStep(Err(ParamsError(e)), fetched, None)
    case Ok(parameters) =>
      var login := CompleteLogin(parameters, flow, trade);
      assert WebFlowLaunched(parameters) in fetched + login.events;
      LoginStep(login.result, fetched + login.events, login.resolvedWith)
  }

  class OAuthHandler {
    const backend: string
    var oAuthParams: Json
    /** The value `withProfile` settled with; None while it is pending. */
    var withProfile: Option<ProfileClient>
    /** The set-once guard of `profileDeferred`. */
    var profileSettled: bool
    /** Every linking step taken so far, in order. */
    ghost var trace: seq<Event>

    ghost predicate Valid()
      reads this
    {
      profileSettled <==> withProfile.Some?
    }

    constructor (backend: string)
      ensures Valid()
      ensures this.backend == backend && oAuthParams == Null
      ensures !profileSettled && withProfile == None && trace == []
    {
      this.backend := backend;
      oAuthParams := Null;
      withProfile := None;
      profileSettled := false;
      trace := [];
    }

    /**
     * `getProfileInfo`: the client whose `fetchProfile` the returned promise
     * settles with, or None while linking has not resolved the slot.
     */
    method GetProfileInfo() returns (client: Option<ProfileClient>)
      requires Valid()
      ensures client.Some? <==> profileSettled
      ensures client == withProfile
    {
      client := withProfile;
    }

    /** `profileDeferred.resolve`: settles the slot once; later calls change nothing. */
    method ResolveProfile(client: ProfileClient)
      requires Valid()
      modifies this
      ensures Valid() && profileSettled
      ensures withProfile == if old(profileSettled) then old(withProfile) else Some(client)
      ensures oAuthParams == old(oAuthParams) && trace == old(trace)
    {
      if !profileSettled {
        withProfile := Some(client);
        profileSettled := true;
      }
    }

    method GetOAuthParams(response: Response) returns (r: Result<Json, HttpError>)
      requires Valid()
      modifies this
      ensures Valid()
      ensures var step := FetchParams(old(oAuthParams), response);
        r == step.result && oAuthParams == step.cache &&
        trace == old(trace) + (if step.requested then [ParamsFetched] else [])
      ensures withProfile == old(withProfile) && profileSettled == old(profileSettled)
    {
      if oAuthParams.Object? {
        r := Ok(oAuthParams);
        return;
      }
      trace := trace + [ParamsFetched];
      var json := response.json;
      if 200 <= response.status && response.status < 300 {
        oAuthParams := json;
        r := Ok(json);
        return;
      }
      r := Err(HttpError(response.status, json));
    }

    /** `tradeCode`: posts the token data; resolves with the body on 2xx, else rejects with status and body. */
    method TradeCode(tokenData: Json, response: Response) returns (r: Result<Json, HttpError>)
      modifies this`trace
      ensures r == SettleJson(response)
      ensures trace == old(trace) + [CodeTraded(tokenData)]
    {
      trace := trace + [CodeTraded(tokenData)];
      var json := response.json;
      if 200 <= response.status && response.status < 300 {
        r := Ok(json);
        return;
      }
      r := Err(HttpError(response.status, json));
    }

    method LogInWithParams(parameters: Json, flow: Result<Json, Json>, trade: Response) returns (r: Result<Json, LoginError>)
      requires Valid()
      modifies this
      ensures Valid()
      ensures var step := CompleteLogin(parameters, flow, trade);
        r == step.result && trace == old(trace) + step.events &&
        withProfile == (if old(profileSettled) || step.resolvedWith.None? then old(withProfile) else step.resolvedWith)
      ensures profileSettled == (old(profileSettled) || r.Ok?)
      ensures oAuthParams == old(oAuthParams)
    {
      trace := trace + [WebFlowLaunched(parameters)];
      if flow.Err? {
        r := Err(WebFlowError(flow.error));
        return;
      }
      var traded := TradeCode(flow.value, trade);
      if traded.Err? {
        r := Err(TradeError(traded.error));
        return;
      }
      var response := traded.value;
      if parameters.Null? || response.Null? {
        r := Err(NullMemberAccess);
        return;
      }
      var client := ProfileClient(Member(parameters, "profile_uri"), Member(response, "access_token"));
      trace := trace + [ProfileResolved(client)];
      ResolveProfile(client);
      r := Ok(response);
    }

    method LogIn(paramsResponse: Response, flow: Result<Json, Json>, trade: Response) returns (r: Result<Json, LoginError>)
      requires Valid()
      modifies this
      ensures Valid()
      ensures var step := LogInRun(old(oAuthParams), paramsResponse, flow, trade);
        r == step.result && trace == old(trace) + step.events &&
        withProfile == (if old(profileSettled) || step.resolvedWith.None? then old(withProfile) else step.resolvedWith)
      ensures profileSettled == (old(profileSettled) || r.Ok?)
      ensures oAuthParams == FetchParams(old(oAuthParams), paramsResponse).cache
    {
      var params := GetOAuthParams(paramsResponse);
      if params.Err? {
        r := Err(ParamsError(params.error));
        return;
      }
      r := LogInWithParams(params.value, flow, trade);
    }
  }

  /**
   * The profile waits for linking: before `logIn` the slot is pending, and a
   * successful `logIn` resolves it with the client built from the provider's
   * `profile_uri` and the traded `access_token`.
   */
  method ProfileAfterLinking() returns (before: Option<ProfileClient>, after: Option<ProfileClient>)
    ensures before == None
    ensures after == Some(ProfileClient(Some("https://fxa/profile"), Some("tok")))
  {
    var handler := new OAuthHandler("https://b");
    before := handler.GetProfileInfo();
    var params := Object(map["profile_uri" := "https://fxa/profile"]);
    var token := Object(map["access_token" := "tok"]);
    var code := Object(map["code" := "c"]);
    var r := handler.LogIn(Response(200, params), Ok(code), Response(200, token));
    after := handler.GetProfileInfo();
  }
}
