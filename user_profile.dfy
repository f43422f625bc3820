/** `UserProfile` and the requests `UserProfileService` makes for it. */
module UserProfiles {
  import opened Wrappers
  import opened Http

  datatype UserProfile = UserProfile(
    appId: string,
    userId: string,
    email: Option<string>,
    givenName: Option<string>,
    familyName: Option<string>,
    createdAt: string,
    updatedAt: string,
    environment: Option<string>)
  {
    /** The identifier: app id and user id joined by a dash. */
    function Id(): (r: string)
      ensures |r| == |appId| + 1 + |userId|
      ensures r[..|appId|] == appId && r[|appId|] == '-' && r[|appId| + 1..] == userId
    {
      appId + "-" + userId
    }

    /** Given and family name; the given name alone; else the e-mail; else the user id. */
    function DisplayName(): (r: string)
      ensures givenName.Some? && familyName.Some? ==> r == givenName.value + " " + familyName.value
      ensures givenName.Some? && familyName.None? ==> r == givenName.value
      ensures givenName.None? ==> r == email.GetOr(userId)
    {
      match (givenName, familyName)
      case (Some(g), Some(f)) => g + " " + f
      case (Some(g), None) => g
      case _ => email.GetOr(userId)
    }
  }

  /** Without a given name the family name plays no part in the display name. */
  lemma FamilyNameAloneIgnored(p: UserProfile, familyName: Option<string>)
    requires p.givenName.None?
    ensures p.(familyName := familyName).DisplayName() == p.DisplayName()
  {
  }

  /** For app ids without a dash, the identifier determines both the app and the user. */
  lemma IdDeterminesAppAndUser(p: UserProfile, q: UserProfile)
    requires '-' !in p.appId && '-' !in q.appId
    requires p.Id() == q.Id()
    ensures p.appId == q.appId && p.userId == q.userId
  {
  }

  const BootstrapPath: string := "/v1/users/bootstrap"
  const MePath: string := "/v1/users/me"

  /** The headers every profile request carries: the bearer token and the app id. */
  function AuthHeaders(accessToken: string, appId: string): seq<(string, string)> {
    [("Authorization", "Bearer " + accessToken), ("x-app-id", appId)]
  }

  /** `send`: the cleaned path, the method, the two identifying headers and a JSON content type. */
  function ProfileRequest(path: string, httpMethod: string, accessToken: string, appId: string): (r: Request)
    ensures r.path == CleanPath(path) && r.httpMethod == httpMethod
    ensures r.headers == AuthHeaders(accessToken, appId) + [("Content-Type", "application/json")]
  {
    Request(httpMethod, CleanPath(path), AuthHeaders(accessToken, appId) + [("Content-Type", "application/json")])
  }

  /** `deleteAccount`: DELETE on the profile with the identifying headers only. */
  function DeleteRequest(accessToken: string, appId: string): (r: Request)
    ensures r.httpMethod == "DELETE" && r.headers == AuthHeaders(accessToken, appId)
  {
    Request("DELETE", "v1/users/me", AuthHeaders(accessToken, appId))
  }

  /** Fetching and deleting address the same resource; bootstrapping posts to its own. */
  lemma ProfileRoutes(accessToken: string, appId: string)
    ensures DeleteRequest(accessToken, appId).path == ProfileRequest(MePath, "GET", accessToken, appId).path
    ensures ProfileRequest(BootstrapPath, "POST", accessToken, appId).path == "v1/users/bootstrap"
  {
  }

  datatype ProfileError = ApiFailure(api: ApiError) | ResponseUnreadable

  /** `send`'s verdict: a non-HTTP response or a status of 400 or more throws with the body text, if any. */
  function SendResult(response: Response, asProfile: Option<UserProfile>): (r: Result<UserProfile, ProfileError>)
    ensures !IsSuccess(response) ==> r == Failure(ApiFailure(ResponseError(response.text)))
    ensures IsSuccess(response) ==> (r.Success? <==> asProfile.Some?)
    ensures r.Success? ==> r.value == asProfile.value
  {
    if !IsSuccess(response) then Failure(ApiFailure(ResponseError(response.text)))
    else if asProfile.None? then Failure(ResponseUnreadable)
    else Success(asProfile.value)
  }

  /** `deleteAccount`'s verdict, with its own messages for a missing response and an unreadable body. */
  function DeleteResult(response: Response): (r: Outcome<ApiError>)
    ensures r == Pass <==> IsSuccess(response)
    ensures response.status.None? ==> r == Fail(ResponseError(Some("No response from server")))
    ensures response.status.Some? && response.status.value >= 400 ==>
      r == Fail(ResponseError(Some(response.text.GetOr("Unable to delete account"))))
  {
    if response.status.None? then Fail(ResponseError(Some("No response from server")))
    else if response.status.value >= 400 then Fail(ResponseError(Some(response.text.GetOr("Unable to delete account"))))
    else Pass
  }
}
