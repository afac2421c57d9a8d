/**
 * The visit-state gate of the home page (HomeHandler.ServeHTTP): from the
 * request path, the posted form fields and the cookies the browser sent, it
 * chooses the page to serve and at most one cookie to set or expire.
 * Expiry is relative (seconds from now); the clock is not modelled.
 */
module HomeGate {

  const BaseUrl := "/"
  const SeenCookie := "seen"
  const SkipCookie := "skip"
  /** Lifetime of the skip cookie: 360 days. */
  const SkipLifetime := 31104000
  /** Lifetime of the seen cookie: one hour. */
  const SeenLifetime := 3600
  /** 302 Found, section 15.4.3 of RFC 9110. */
  const StatusFound := 302

  /** What the gate reads from a request. */
  datatype Request = Request(
    path: string,
    posted: string,        // form value "posted"
    skipIntro: string,     // form value "skipintro"
    hasSkipCookie: bool,
    hasSeenCookie: bool)

  datatype Page = IntroPage | MapPage

  datatype Action =
    | NotFound                                  // handed to the not-found handler
    | Redirect(status: int, location: string)
    | Serve(page: Page)

  datatype CookieOp =
    | NoCookie
    | SetCookie(name: string, lifetime: nat)    // Expires = now + lifetime seconds
    | ExpireCookie(name: string, maxAge: int)   // the request's cookie sent back with MaxAge

  datatype Response = Response(action: Action, cookie: CookieOp)

  /** HomeHandler.ServeHTTP. */
  function ServeHome(r: Request): (resp: Response)
    ensures resp.action == NotFound <==> r.path != BaseUrl
    ensures r.path != BaseUrl ==> resp.cookie == NoCookie
    ensures resp.action.Redirect? <==> r.path == BaseUrl && r.posted != ""
    ensures resp.action.Redirect? ==> resp.action == Redirect(StatusFound, BaseUrl)
    ensures resp.action.Redirect? ==>
      resp.cookie == if r.skipIntro != "" then SetCookie(SkipCookie, SkipLifetime)
                     else SetCookie(SeenCookie, SeenLifetime)
    ensures resp.action == Serve(IntroPage) <==>
      r.path == BaseUrl && r.posted == "" && !r.hasSkipCookie && !r.hasSeenCookie
    ensures resp.action == Serve(MapPage) <==>
      r.path == BaseUrl && r.posted == "" && (r.hasSkipCookie || r.hasSeenCookie)
    ensures resp.action.Serve? ==>
      resp.cookie == if !r.hasSkipCookie && r.hasSeenCookie then ExpireCookie(SeenCookie, -1)
                     else NoCookie
  {
    if r.path != BaseUrl then
      Response(NotFound, NoCookie)
    else if r.posted != "" then
      var cookie := if r.skipIntro != "" then SetCookie(SkipCookie, SkipLifetime)
                    else SetCookie(SeenCookie, SeenLifetime);
      Response(Redirect(StatusFound, BaseUrl), cookie)
    else if r.hasSkipCookie then
      Response(Serve(MapPage), NoCookie)
    else if r.hasSeenCookie then
      Response(Serve(MapPage), ExpireCookie(SeenCookie, -1))
    else
      Response(Serve(IntroPage), NoCookie)
  }

  /*
   * The browser's side: a cookie jar maps each cookie name to the instant
   * (in seconds) at which it expires. A cookie is sent while that instant is
   * in the future. A Max-Age of zero or less expires the cookie at once
   * (section 5.2.2 of RFC 6265; Go writes MaxAge -1 as Max-Age=0).
   */

  type Jar = map<string, int>

  predicate Holds(jar: Jar, name: string, now: int)
  {
    name in jar && jar[name] > now
  }

  function Store(jar: Jar, op: CookieOp, now: int): (jar': Jar)
  {
    match op
    case NoCookie => jar
    case SetCookie(name, lifetime) => jar[name := now + lifetime]
    case ExpireCookie(name, maxAge) => if maxAge <= 0 then jar - {name} else jar[name := now + maxAge]
  }

  /** A request to the home page at instant now, carrying the cookies of the jar. */
  function Visit(jar: Jar, now: int, posted: string, skipIntro: string): Request
  {
    Request(BaseUrl, posted, skipIntro, Holds(jar, SkipCookie, now), Holds(jar, SeenCookie, now))
  }

  /** A first-time visitor, with no cookies, is shown the intro page. */
  lemma NewVisitorSeesIntro(now: int)
    ensures ServeHome(Visit(map[], now, "", "")) == Response(Serve(IntroPage), NoCookie)
  {
  }

  /**
   * Continuing past the intro without opting out: the redirect that follows
   * within the hour shows the map and clears the seen cookie, so the next
   * plain visit shows the intro again. The seen cookie is a one-shot marker.
   */
  lemma ContinueShowsMapOnce(jar: Jar, t0: int, t1: int, t2: int)
    requires !Holds(jar, SkipCookie, t1) && !Holds(jar, SkipCookie, t2)
    requires t0 <= t1 < t0 + SeenLifetime && t1 <= t2
    ensures var post := ServeHome(Visit(jar, t0, "true", ""));
      var jar1 := Store(jar, post.cookie, t0);
      var back := ServeHome(Visit(jar1, t1, "", ""));
      var jar2 := Store(jar1, back.cookie, t1);
      && post.action == Redirect(StatusFound, BaseUrl)
      && back.action == Serve(MapPage)
      && ServeHome(Visit(jar2, t2, "", "")).action == Serve(IntroPage)
  {
    var post := ServeHome(Visit(jar, t0, "true", ""));
    var jar1 := Store(jar, post.cookie, t0);
    assert jar1 == jar[SeenCookie := t0 + SeenLifetime];
    assert Holds(jar1, SeenCookie, t1);
    assert !Holds(jar1, SkipCookie, t1);
    var back := ServeHome(Visit(jar1, t1, "", ""));
    assert back.cookie == ExpireCookie(SeenCookie, -1);
    var jar2 := Store(jar1, back.cookie, t1);
    assert SeenCookie !in jar2;
    assert SkipCookie in jar2 ==> jar2[SkipCookie] == jar[SkipCookie];
  }

  /**
   * Opting out of the intro: every plain visit during the following 360 days
   * shows the map and leaves the jar as it is, whatever else the jar holds.
   */
  lemma SkipShowsMapForAYear(jar: Jar, t0: int, t: int)
    requires t0 <= t < t0 + SkipLifetime
    ensures var post := ServeHome(Visit(jar, t0, "true", "on"));
      var jar1 := Store(jar, post.cookie, t0);
      var later := ServeHome(Visit(jar1, t, "", ""));
      && post.action == Redirect(StatusFound, BaseUrl)
      && later == Response(Serve(MapPage), NoCookie)
      && Store(jar1, later.cookie, t) == jar1
  {
    var jar1 := Store(jar, SetCookie(SkipCookie, SkipLifetime), t0);
    assert Holds(jar1, SkipCookie, t);
  }

  /** The five requests of the server's handler test and the outcomes it expects. */
  lemma HandlerTestCases()
    ensures ServeHome(Request("/thispathdoesnotexist", "", "", false, false)).action == NotFound
    ensures ServeHome(Request("/", "", "", false, false)).action == Serve(IntroPage)
    ensures ServeHome(Request("/", "", "", false, true)).action == Serve(MapPage)
    ensures ServeHome(Request("/", "", "", true, false)).action == Serve(MapPage)
    ensures ServeHome(Request("/", "true", "", false, false))
      == Response(Redirect(StatusFound, BaseUrl), SetCookie(SeenCookie, SeenLifetime))
    ensures ServeHome(Request("/", "true", "on", false, false))
      == Response(Redirect(StatusFound, BaseUrl), SetCookie(SkipCookie, SkipLifetime))
  {
  }
}
