/** The profile component: on mount it expires a stale session, then fetches the profile with
    the token cookie, and renders a spinner, an error, a "No Data" notice or the profile. */
module Profile {
  import opened JsValues
  import opened Cookies

  /** Elapsed milliseconds since `login_time` at which the session counts as expired. */
  const SessionTimeoutMs: int := 1000
  const NoTokenMessage: string := "No access token found"
  const FetchFailedMessage: string := "Failed to fetch profile"

  datatype User = User(
    id: string,
    username: string,
    accountType: Option<string>,
    mediaCount: Option<int>,
    followersCount: Option<int>,
    biography: Option<string>,
    website: Option<string>,
    profilePictureUrl: Option<string>)

  /** What the profile request produced: a response body (absent when the server sent none),
      or an exception. */
  datatype ProfileOutcome = ProfileFetched(body: Option<User>) | ProfileFailed

  /** `checkSessionTimeout`'s test: a non-empty `login_time` cookie whose `Number` value is at
      least `SessionTimeoutMs` before `now`. A `NaN` value never expires; an all-blank one
      reads as 0, the epoch, and so expires once `now` is a second past it. */
  predicate SessionExpired(loginTime: Option<string>, now: int)
  {
    Truthy(loginTime)
    && var t := StringToNumber(loginTime.value);
       t.Some? && now - t.value >= SessionTimeoutMs
  }

  /** Only a non-empty `login_time` can expire the session. A string of digits expires it
      exactly when at least `SessionTimeoutMs` have passed since its value; a non-empty
      all-blank one reads as 0 and expires it once `now` is that far past the epoch. */
  lemma SessionExpiredCases(loginTime: Option<string>, now: int)
    ensures SessionExpired(loginTime, now) ==> Truthy(loginTime)
    ensures Truthy(loginTime) && AllDigits(loginTime.value) ==>
      (SessionExpired(loginTime, now) <==> now - DigitsValue(loginTime.value) >= SessionTimeoutMs)
    ensures Truthy(loginTime) && IsBlank(loginTime.value) ==>
      (SessionExpired(loginTime, now) <==> now >= SessionTimeoutMs)
  {
  }

  /** With `login_time` holding the decimal form of a timestamp, the session is expired exactly
      when at least `SessionTimeoutMs` (1000 ms) have passed since it. */
  lemma SessionExpiredAfterTimeout(loginTime: nat, now: int)
    ensures SessionExpired(Some(NatToDecimal(loginTime)), now) <==> now - loginTime >= SessionTimeoutMs
  {
    DecimalRoundTrip(loginTime);
  }

  /** An absent or empty `login_time` never expires the session. */
  lemma NoLoginTimeNoExpiry(now: int)
    ensures !SessionExpired(None, now) && !SessionExpired(Some(""), now)
  {
  }

  /** `checkSessionTimeout`: when the session is expired both the token and the login-time
      cookies are removed (and an alert tells the user); otherwise no cookie changes. */
  method CheckSessionTimeout(jar: CookieJar, now: int) returns (expired: bool)
    modifies jar
    ensures expired == SessionExpired(old(jar.Get(LoginTimeCookie)), now)
    ensures expired ==> jar.values == old(jar.values) - {TokenCookie, LoginTimeCookie}
    ensures expired ==> jar.lifetimes == old(jar.lifetimes) - {TokenCookie, LoginTimeCookie}
    ensures !expired ==> jar.values == old(jar.values) && jar.lifetimes == old(jar.lifetimes)
  {
    var loginTime := jar.Get(LoginTimeCookie);
    expired := false;
    if Truthy(loginTime) {
      var t := StringToNumber(loginTime.value);
      if t.Some? && now - t.value >= SessionTimeoutMs {
        jar.Remove(TokenCookie);
        jar.Remove(LoginTimeCookie);
        expired := true;
      }
    }
  }

  datatype ProfileView =
    | Spinner
    | ErrorPanel(message: string)
    | NoData
    | ProfileCard(user: User, gallery: bool)

  /** What the profile component renders: the spinner while loading, else the error, else
      "No Data" without a profile, else the profile, with the gallery below it once opened. */
  function RenderProfile(loading: bool, error: Option<string>, profile: Option<User>, showGallery: bool): (v: ProfileView)
    ensures v.Spinner? <==> loading
    ensures v.ErrorPanel? <==> !loading && Truthy(error)
    ensures v.ErrorPanel? ==> v.message == error.value
    ensures v.NoData? <==> !loading && !Truthy(error) && profile.None?
    ensures v.ProfileCard? ==> profile == Some(v.user) && v.gallery == showGallery
  {
    if loading then Spinner
    else if Truthy(error) then ErrorPanel(error.value)
    else if profile.None? then NoData
    else ProfileCard(profile.value, showGallery)
  }

  /** The state of one profile component. */
  class ProfilePage {
    var profile: Option<User>
    var loading: bool
    var error: Option<string>
    var showGallery: bool

    constructor ()
      ensures profile == None && loading && error == None && !showGallery
    {
      profile := None;
      loading := true;
      error := None;
      showGallery := false;
    }

    /** `fetchProfileData`: without a token it reports the missing token and makes no request;
        otherwise a response body becomes the profile and an exception the error. */
    method FetchProfileData(jar: CookieJar, outcome: ProfileOutcome)
      modifies this
      ensures !Truthy(jar.Get(TokenCookie)) ==> error == Some(NoTokenMessage) && profile == old(profile)
      ensures Truthy(jar.Get(TokenCookie)) && outcome.ProfileFetched? ==> profile == outcome.body && error == old(error)
      ensures Truthy(jar.Get(TokenCookie)) && outcome.ProfileFailed? ==> error == Some(FetchFailedMessage) && profile == old(profile)
      ensures !loading && showGallery == old(showGallery)
    {
      var token := jar.Get(TokenCookie);
      if !Truthy(token) {
        error := Some(NoTokenMessage);
        loading := false;
        return;
      }
      match outcome {
        case ProfileFetched(body) =>
          profile := body;
        case ProfileFailed =>
          error := Some(FetchFailedMessage);
      }
      loading := false;
    }

    /** The mount effect: the session check, then the fetch with whatever token is left.
        An expired session therefore always ends on the missing-token error. */
    method Mount(jar: CookieJar, now: int, outcome: ProfileOutcome) returns (expired: bool)
      modifies this, jar
      ensures expired == SessionExpired(old(jar.Get(LoginTimeCookie)), now)
      ensures expired ==> error == Some(NoTokenMessage) && profile == old(profile)
      ensures expired ==> jar.values == old(jar.values) - {TokenCookie, LoginTimeCookie}
      ensures expired ==> jar.lifetimes == old(jar.lifetimes) - {TokenCookie, LoginTimeCookie}
      ensures !expired ==> jar.values == old(jar.values) && jar.lifetimes == old(jar.lifetimes)
      ensures !expired && !Truthy(jar.Get(TokenCookie)) ==> error == Some(NoTokenMessage) && profile == old(profile)
      ensures !expired && Truthy(jar.Get(TokenCookie)) && outcome.ProfileFetched? ==>
        profile == outcome.body && error == old(error)
      ensures !expired && Truthy(jar.Get(TokenCookie)) && outcome.ProfileFailed? ==>
        error == Some(FetchFailedMessage) && profile == old(profile)
      ensures !loading && showGallery == old(showGallery)
    {
      expired := CheckSessionTimeout(jar, now);
      FetchProfileData(jar, outcome);
    }

    /** Clicking the post count or "View Posts" opens the gallery. Nothing closes it: the
        gallery never calls the `onClose` it is given. */
    method HandlePostClick()
      modifies this`showGallery
      ensures showGallery
    {
      showGallery := true;
    }
  }
}
