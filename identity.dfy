/**
 * The device identity: the persisted store of `user.js` and the startup
 * reconciler `initialize`, which either registers a freshly generated
 * anonymous identity or logs in with the stored one.
 *
 * A field of the stored record that is missing (or any other falsy value)
 * is represented by the empty string.
 */
module Identity {
  import opened Responses
  import Uuid

  datatype UserInfo = UserInfo(userId: string, secret: string)

  /** The test at the top of `initialize`: a record with a truthy `userId` and a truthy `secret`. */
  predicate HasIdentity(stored: Option<UserInfo>) {
    stored.Some? && stored.value.userId != "" && stored.value.secret != ""
  }

  /** The persisted key-value record `ss.storage`, reduced to the two keys the core uses. */
  class Storage {
    var userInfo: Option<UserInfo>
    var profileInfo: Option<Json>

    constructor ()
      ensures userInfo == None && profileInfo == None
    {
      userInfo := None;
      profileInfo := None;
    }

    /** `getUserInfo`: the stored record, exactly as persisted. */
    method GetUserInfo() returns (info: Option<UserInfo>)
      ensures info == userInfo
    {
      info := userInfo;
    }

    /** `setProfileInfo`: overwrites the cached profile and nothing else. */
    method SetProfileInfo(profile: Json)
      modifies this
      ensures profileInfo == Some(profile)
      ensures userInfo == old(userInfo)
    {
      profileInfo := Some(profile);
    }

    /** `getProfileInfo`: the cached profile, absent until one is set. */
    method GetProfileInfo() returns (profile: Option<Json>)
      ensures profile == profileInfo
    {
      profile := profileInfo;
    }
  }

  /** A request the reconciler posts; both endpoints carry the identity as their form body. */
  datatype Request = Register(info: UserInfo) | Login(info: UserInfo)

  /** How one startup ends; the failures are only ever logged. */
  datatype Outcome =
    | Registered
    | RegisterFailed(status: int)
    | LoggedIn
    | LoginFailed(status: int)
    | Reregistered
    | ReregisterFailed(status: int)
  {
    predicate IsFailure() {
      RegisterFailed? || LoginFailed? || ReregisterFailed?
    }
  }

  /**
   * What the outside world contributes to one startup: the two generator
   * outputs used for a fresh identity, and the status the backend answers
   * to a login and to a registration.
   */
  datatype Environment = Environment(idUuid: string, secretUuid: string, loginStatus: int, registerStatus: int)

  /** The identity `initialize` generates when the store holds none. */
  function FreshIdentity(env: Environment): (info: UserInfo)
    ensures |info.userId| >= 4 && info.userId[..4] == "anon"
    ensures Uuid.BraceFree(info.userId[4..]) && Uuid.BraceFree(info.secret)
    // both halves are this startup's generator outputs with their braces dropped
    ensures info.userId == "anon" + Uuid.NonBraces(env.idUuid)
    ensures info.secret == Uuid.NonBraces(env.secretUuid)
  {
    Uuid.MakeUuidKeepsNonBracesInOrder(env.idUuid);
    Uuid.MakeUuidKeepsNonBracesInOrder(env.secretUuid);
    var id := Uuid.MakeUuid(env.idUuid);
    assert ("anon" + id)[4..] == id;
    UserInfo("anon" + id, Uuid.MakeUuid(env.secretUuid))
  }

  /** How the reconciler reads the login response. */
  datatype LoginVerdict = LoginOk | NotFound | LoginError(status: int)

  /** A 404 means "register again"; any other status of 300 or more is an error; the rest end the flow. */
  function ClassifyLogin(status: int): (v: LoginVerdict)
    ensures v == NotFound <==> status == 404
    ensures v.LoginError? <==> status >= 300 && status != 404
    ensures v.LoginError? ==> v.status == status
    ensures v == LoginOk <==> status < 300
  {
    if status == 404 then NotFound
    else if status >= 300 then LoginError(status)
    else LoginOk
  }

  /** The requests one startup posts, the store afterwards and how it ended. */
  datatype StartupRun = StartupRun(sent: seq<Request>, userInfo: Option<UserInfo>, outcome: Outcome)

  /** One run of `initialize` against the stored record `stored`. */
  function Reconcile(stored: Option<UserInfo>, env: Environment): (r: StartupRun)
    // the store changes only by saving the fresh identity after a 200 registration
    ensures r.userInfo != stored ==>
      !HasIdentity(stored) && env.registerStatus == 200 && r.userInfo == Some(FreshIdentity(env))
    ensures !HasIdentity(stored) ==>
      r.sent == [Register(FreshIdentity(env))] &&
      r.userInfo == (if env.registerStatus == 200 then Some(FreshIdentity(env)) else stored)
    // an existing identity is sent as it is, never regenerated and never rewritten
    ensures HasIdentity(stored) ==>
      r.userInfo == stored && 1 <= |r.sent| <= 2 && r.sent[0] == Login(stored.value) &&
      (forall q :: q in r.sent ==> q.info == stored.value)
    ensures |r.sent| == 2 <==> HasIdentity(stored) && env.loginStatus == 404
    ensures |r.sent| == 2 ==> r.sent[1] == Register(stored.value)
    ensures r.outcome.IsFailure() <==>
      if HasIdentity(stored) then
        (env.loginStatus == 404 && env.registerStatus != 200) ||
        (env.loginStatus != 404 && env.loginStatus >= 300)
      else env.registerStatus != 200
    // each outcome names the request that decided it and carries that request's status
    ensures r.outcome ==
      if !HasIdentity(stored) then
        (if env.registerStatus == 200 then Registered else RegisterFailed(env.registerStatus))
      else if env.loginStatus == 404 then
        (if env.registerStatus == 200 then Reregistered else ReregisterFailed(env.registerStatus))
      else if env.loginStatus >= 300 then LoginFailed(env.loginStatus)
      else LoggedIn
  {
    if !HasIdentity(stored) then
      var info := FreshIdentity(env);
      match SaveLogin(env.registerStatus)
      case Ok(_) => StartupRun([Register(info)], Some(info), Registered)
      case Err(s) => StartupRun([Register(info)], stored, RegisterFailed(s))
    else
      var info := stored.value;
      match ClassifyLogin(env.loginStatus)
      case NotFound =>
        (match SaveLogin(env.registerStatus)
         case Ok(_) => StartupRun([Login(info), Register(info)], stored, Reregistered)
         case Err(s) => StartupRun([Login(info), Register(info)], stored, ReregisterFailed(s)))
      case LoginError(s) => StartupRun([Login(info)], stored, LoginFailed(s))
      case LoginOk => StartupRun([Login(info)], stored, LoggedIn)
  }

  /** `initialize` on the persisted store: posts the requests and writes the store as `Reconcile` says. */
  method Initialize(store: Storage, env: Environment) returns (sent: seq<Request>, outcome: Outcome)
    modifies store
    ensures var run := Reconcile(old(store.userInfo), env);
      sent == run.sent && outcome == run.outcome && store.userInfo == run.userInfo
    ensures store.profileInfo == old(store.profileInfo)
  {
    var stored := store.userInfo;
    if !(stored.Some? && stored.value.userId != "" && stored.value.secret != "") {
      var info := UserInfo("anon" + Uuid.MakeUuid(env.idUuid), Uuid.MakeUuid(env.secretUuid));
      sent := [Register(info)];
      var saved := SaveLogin(env.registerStatus);
      if saved.Ok? {
        store.userInfo := Some(info);
        outcome := Registered;
      } else {
        outcome := RegisterFailed(saved.error);
      }
    } else {
      var info := stored.value;
      sent := [Login(info)];
      if env.loginStatus == 404 {
        sent := sent + [Register(info)];
        var saved := SaveLogin(env.registerStatus);
        outcome := if saved.Ok? then Reregistered else ReregisterFailed(saved.error);
      } else if env.loginStatus >= 300 {
        outcome := LoginFailed(env.loginStatus);
      } else {
        outcome := LoggedIn;
      }
    }
  }

  /**
   * The identity saved after a successful registration passes the presence
   * test on the next startup, so it is logged in with rather than regenerated.
   */
  lemma FreshIdentityRecognised(env: Environment)
    requires Uuid.HasNonBrace(env.secretUuid)
    ensures HasIdentity(Some(FreshIdentity(env)))
  {
    Uuid.MakeUuidNonEmpty(env.secretUuid);
  }

  /** The stored record after a sequence of startups, one per environment. */
  function Restarts(stored: Option<UserInfo>, envs: seq<Environment>): Option<UserInfo>
    decreases |envs|
  {
    if envs == [] then stored
    else Restarts(Reconcile(stored, envs[0]).userInfo, envs[1..])
  }

  /** Once the store holds an identity, no number of startups changes it. */
  lemma {:induction false} IdentityKeptAcrossRestarts(stored: Option<UserInfo>, envs: seq<Environment>)
    requires HasIdentity(stored)
    ensures Restarts(stored, envs) == stored
  {
    if envs != [] {
      IdentityKeptAcrossRestarts(stored, envs[1..]);
    }
  }

  /** Startups whose registrations all fail leave a store without identity exactly as it was. */
  lemma {:induction false} FailedRegistrationsLeaveStore(stored: Option<UserInfo>, envs: seq<Environment>)
    requires !HasIdentity(stored)
    requires forall j :: 0 <= j < |envs| ==> envs[j].registerStatus != 200
    ensures Restarts(stored, envs) == stored
  {
    if envs != [] {
      FailedRegistrationsLeaveStore(stored, envs[1..]);
    }
  }

  /**
   * Starting without an identity, the first startup whose registration
   * succeeds fixes the identity for good: the store ends up holding exactly
   * the identity generated in that startup.
   */
  lemma {:induction false} FirstRegistrationFixesIdentity(stored: Option<UserInfo>, envs: seq<Environment>, i: nat)
    requires !HasIdentity(stored)
    requires i < |envs| && envs[i].registerStatus == 200
    requires forall j :: 0 <= j < i ==> envs[j].registerStatus != 200
    requires Uuid.HasNonBrace(envs[i].secretUuid)
    ensures Restarts(stored, envs) == Some(FreshIdentity(envs[i]))
  {
    if i == 0 {
      FreshIdentityRecognised(envs[0]);
      IdentityKeptAcrossRestarts(Some(FreshIdentity(envs[0])), envs[1..]);
    } else {
      FirstRegistrationFixesIdentity(stored, envs[1..], i - 1);
    }
  }
}
