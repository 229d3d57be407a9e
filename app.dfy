/** The application shell: it picks up the token handed back in the URL or saved in the
    cookie, and shows the login screen exactly when it has none. */
module App {
  import opened JsValues
  import opened Cookies
  import Profile
  import MediaGallery

  /** The token cookie's `expires` attribute: 1/24 of a day. */
  const TokenLifetimeDays: real := 1.0 / 24.0
  const MillisPerDay: real := 86400000.0

  /** The token cookie lives one hour. */
  lemma TokenLifetimeIsOneHour()
    ensures TokenLifetimeDays * MillisPerDay == 3600000.0
  {
  }

  /** The token after the shell's effect: a non-empty URL token wins; only without one is the
      saved cookie consulted; with neither the token stays what it was. */
  function SelectToken(urlToken: Option<string>, saved: Option<string>, current: string): (t: string)
    ensures Truthy(urlToken) ==> t == urlToken.value
    ensures !Truthy(urlToken) && Truthy(saved) ==> t == saved.value
    ensures !Truthy(urlToken) && !Truthy(saved) ==> t == current
  {
    if Truthy(urlToken) then urlToken.value
    else if Truthy(saved) then saved.value
    else current
  }

  /** Starting from the initial empty token, the shell ends up without a token exactly when
      neither the URL nor the cookie supplied a non-empty one. */
  lemma SelectTokenEmpty(urlToken: Option<string>, saved: Option<string>)
    ensures SelectToken(urlToken, saved, "") == "" <==> !Truthy(urlToken) && !Truthy(saved)
  {
  }

  datatype Screen = LoginScreen | ProfileScreen

  /** The login screen is shown exactly when the token is empty. */
  function ScreenFor(token: string): (s: Screen)
    ensures s == LoginScreen <==> token == ""
    ensures s == ProfileScreen <==> token != ""
  {
    if token == "" then LoginScreen else ProfileScreen
  }

  /** The state of the application shell. */
  class Shell {
    var token: string

    constructor ()
      ensures token == ""
    {
      token := "";
    }

    /** The mount effect. A non-empty `token` URL parameter becomes the token and is saved in
        the token cookie for one hour (and is removed from the address bar); otherwise a
        non-empty saved cookie becomes the token. */
    method Init(urlToken: Option<string>, jar: CookieJar)
      modifies this, jar
      ensures token == SelectToken(urlToken, old(jar.Get(TokenCookie)), old(token))
      ensures Truthy(urlToken) ==> jar.values == old(jar.values)[TokenCookie := urlToken.value]
      ensures Truthy(urlToken) ==> jar.lifetimes == old(jar.lifetimes)[TokenCookie := TokenLifetimeDays]
      ensures !Truthy(urlToken) ==> jar.values == old(jar.values) && jar.lifetimes == old(jar.lifetimes)
    {
      if Truthy(urlToken) {
        token := urlToken.value;
        jar.Set(TokenCookie, urlToken.value, TokenLifetimeDays);
      } else {
        var saved := jar.Get(TokenCookie);
        if Truthy(saved) {
          token := saved.value;
        }
      }
    }

    /** What the shell renders. */
    function View(): (s: Screen)
      reads this
      ensures s == LoginScreen <==> token == ""
    {
      ScreenFor(token)
    }
  }

  /** A session whose `login_time` is at least a second old when the profile mounts: the shell
      still holds its token and shows the profile component, but the profile component finds
      both cookies removed, makes no request and shows the missing-token error. The profile
      then stops at its error panel, so the gallery, which is mounted only inside the profile
      card, is never shown. */
  method ExpiredSessionScenario(jar: CookieJar, token: string, loginTime: nat, now: int,
                                outcome: Profile.ProfileOutcome)
    returns (screen: Screen, view: Profile.ProfileView, tokenCookie: Option<string>)
    requires jar.Get(TokenCookie) == Some(token) && jar.Get(LoginTimeCookie) == Some(NatToDecimal(loginTime))
    requires token != "" && now - loginTime >= Profile.SessionTimeoutMs
    modifies jar
    ensures screen == ProfileScreen
    ensures view == Profile.ErrorPanel(Profile.NoTokenMessage)
    ensures tokenCookie == None
  {
    var shell := new Shell();
    shell.Init(None, jar);
    screen := shell.View();
    var page := new Profile.ProfilePage();
    Profile.SessionExpiredAfterTimeout(loginTime, now);
    var expired := page.Mount(jar, now, outcome);
    view := Profile.RenderProfile(page.loading, page.error, page.profile, page.showGallery);
    tokenCookie := jar.Get(TokenCookie);
  }

  /** Opening the posts on a live session. With a token and no `login_time` cookie (nothing in
      the modelled files writes one) the profile loads the user, shows the card, and a click
      on the post count opens the gallery; the cookies are left as they were. */
  method OpenPostsScenario(jar: CookieJar, token: string, now: int, user: Profile.User)
    returns (view: Profile.ProfileView)
    requires jar.Get(TokenCookie) == Some(token) && jar.Get(LoginTimeCookie) == None
    requires token != ""
    modifies jar
    ensures view == Profile.ProfileCard(user, true)
    ensures jar.values == old(jar.values) && jar.lifetimes == old(jar.lifetimes)
  {
    var profile := new Profile.ProfilePage();
    Profile.NoLoginTimeNoExpiry(now);
    var expired := profile.Mount(jar, now, Profile.ProfileFetched(Some(user)));
    profile.HandlePostClick();
    view := Profile.RenderProfile(profile.loading, profile.error, profile.profile, profile.showGallery);
  }

  /** The token cookie lapsing while the gallery is open. The posts are opened as above and
      the gallery's first load brings a page with a cursor. Then the token cookie goes (its
      one-hour lifetime ends, modelled as its removal), and the next load-more makes no
      request: the error becomes "An unexpected error occurred", the loaded items and the
      paging stay as the first page left them, and the load-more is no longer pending. */
  method LapsedTokenScenario(jar: CookieJar, token: string, now: int, user: Profile.User,
                             page: seq<MediaGallery.Media>, after: string, next: Option<string>,
                             outcome: MediaGallery.FetchOutcome)
    returns (view: Profile.ProfileView, gallery: MediaGallery.Gallery)
    requires jar.Get(TokenCookie) == Some(token) && jar.Get(LoginTimeCookie) == None
    requires token != "" && after != ""
    modifies jar
    ensures view == Profile.ProfileCard(user, true)
    ensures gallery.error == Some(MediaGallery.UnexpectedError)
    ensures gallery.media == page
    ensures gallery.paging == MediaGallery.Paging(Some(MediaGallery.Cursors(after)), next)
    ensures !gallery.isLoadingMore
  {
    view := OpenPostsScenario(jar, token, now, user);
    gallery := new MediaGallery.Gallery();
    var first := MediaGallery.MediaResponse(page, MediaGallery.Paging(Some(MediaGallery.Cursors(after)), next));
    gallery.LoadMedia(None, jar, MediaGallery.Fetched(first));
    jar.Remove(TokenCookie);
    var request := gallery.HandleLoadMore();
    gallery.LoadMedia(request, jar, outcome);
    MediaGallery.MergeIntoEmpty(page);
  }
}
