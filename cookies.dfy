/** The browser cookie store as the components see it through `js-cookie`: named string
    values, some written with a lifetime in days. */
module Cookies {
  import opened JsValues

  /** The cookie holding the bearer token. */
  const TokenCookie: string := "insta_token"
  /** The cookie holding the login timestamp, in milliseconds since the epoch. */
  const LoginTimeCookie: string := "login_time"

  class CookieJar {
    var values: map<string, string>
    /** The `expires` attribute, in days, of each cookie written with one. */
    var lifetimes: map<string, real>

    constructor (initial: map<string, string>)
      ensures values == initial && lifetimes == map[]
    {
      values := initial;
      lifetimes := map[];
    }

    /** `Cookies.get(name)`. */
    function Get(name: string): (r: Option<string>)
      reads this
      ensures r.Some? <==> name in values
      ensures r.Some? ==> r.value == values[name]
    {
      if name in values then Some(values[name]) else None
    }

    /** `Cookies.set(name, value, { expires: days })`. */
    method Set(name: string, value: string, days: real)
      modifies this
      ensures values == old(values)[name := value]
      ensures lifetimes == old(lifetimes)[name := days]
    {
      values := values[name := value];
      lifetimes := lifetimes[name := days];
    }

    /** `Cookies.remove(name)`. */
    method Remove(name: string)
      modifies this
      ensures values == old(values) - {name}
      ensures lifetimes == old(lifetimes) - {name}
    {
      values := values - {name};
      lifetimes := lifetimes - {name};
    }
  }
}
