/**
 * Values exchanged with the backend and the rules that decide, from an HTTP
 * status, whether a request settled successfully. Every request of the
 * add-on is reduced to the response it gets: a status and a parsed body.
 */
module Responses {

  datatype Option<+T> = None | Some(value: T)

  datatype Result<+T, +E> = Ok(value: T) | Err(error: E)

  /**
   * A parsed JSON body. `Null` stands for every falsy body (null or
   * undefined); an object is reduced to its string-valued members, which is
   * all the core ever reads from one (`profile_uri`, `access_token`).
   */
  datatype Json = Null | Object(members: map<string, string>)

  /** JavaScript truthiness of a body: every object is truthy. */
  predicate Truthy(j: Json) {
    j.Object?
  }

  /**
   * Reading member `key` of an object: `undefined` (None) when the object
   * lacks it. Reading a member of null throws, so callers must rule it out.
   */
  function Member(j: Json, key: string): (v: Option<string>)
    requires j.Object?
    ensures v.Some? <==> key in j.members
    ensures v.Some? ==> v.value == j.members[key]
  {
    if key in j.members then Some(j.members[key]) else None
  }

  /** What the transport hands to a request's completion callback. */
  datatype Response = Response(status: int, json: Json)

  /** The error built by `getOAuthParams` and `tradeCode`: it carries `.status` and `.json`. */
  datatype HttpError = HttpError(status: int, json: Json)

  /** The 2xx range accepted by `updateLogin`, `getOAuthParams` and `tradeCode`. */
  predicate IsSuccess(status: int)
    ensures IsSuccess(status) <==> status / 100 == 2
  {
    200 <= status && status < 300
  }

  /**
   * `saveLogin`'s completion: registration resolves only on status 200 exactly
   * and otherwise rejects with an error naming the status.
   */
  function SaveLogin(status: int): (r: Result<(), int>)
    ensures r.Ok? <==> status == 200
    ensures r.Err? ==> r.error == status
  {
    if status == 200 then Ok(()) else Err(status)
  }

  /**
   * `updateLogin`'s completion: resolves with nothing on a 2xx status and
   * otherwise rejects with the bare response body (no status attached).
   */
  function UpdateLogin(response: Response): (r: Result<(), Json>)
    ensures r.Ok? <==> IsSuccess(response.status)
    ensures r.Err? ==> r.error == response.json
  {
    if 200 <= response.status && response.status < 300 then Ok(()) else Err(response.json)
  }

  /**
   * The completion shared by `getOAuthParams` and `tradeCode`: a 2xx status
   * resolves with the parsed body, anything else rejects with an error that
   * carries the status and the body.
   */
  function SettleJson(response: Response): (r: Result<Json, HttpError>)
    ensures r.Ok? <==> IsSuccess(response.status)
    ensures r.Ok? ==> r.value == response.json
    ensures r.Err? ==> r.error == HttpError(response.status, response.json)
  {
    if 200 <= response.status && response.status < 300 then Ok(response.json)
    else Err(HttpError(response.status, response.json))
  }

  /**
   * Registration is strictly stricter than the other endpoints: whatever it
   * accepts, they accept, and a 201 is accepted by them but rejected by it.
   */
  lemma RegistrationStricterThanSuccess(status: int, body: Json)
    ensures SaveLogin(status).Ok? ==> UpdateLogin(Response(status, body)).Ok?
    ensures SaveLogin(status).Ok? ==> SettleJson(Response(status, body)).Ok?
    ensures SaveLogin(201).Err? && UpdateLogin(Response(201, body)).Ok?
  {
  }

  /**
   * `updateLogin` and the OAuth requests agree on which statuses succeed, and
   * when they fail they report the same body; only the OAuth error also
   * carries the status.
   */
  lemma UpdateAgreesWithSettle(response: Response)
    ensures UpdateLogin(response).Ok? <==> SettleJson(response).Ok?
    ensures UpdateLogin(response).Err? ==>
      SettleJson(response).error.json == UpdateLogin(response).error &&
      SettleJson(response).error.status == response.status
  {
  }
}
