/** The browser state the session code reads and writes: `localStorage`,
    the cookie jar behind `document.cookie`, and the current location. */
module Browser {
  import opened Common

  /** One cookie: its value, its path and its `max-age` in seconds. */
  datatype Cookie = Cookie(value: string, path: string, maxAge: int)

  class Window {
    var localStorage: map<string, string>
    var cookies: map<string, Cookie>
    var location: string

    constructor (localStorage: map<string, string>, cookies: map<string, Cookie>, location: string)
      ensures this.localStorage == localStorage
      ensures this.cookies == cookies
      ensures this.location == location
    {
      this.localStorage := localStorage;
      this.cookies := cookies;
      this.location := location;
    }

    /** `localStorage.getItem(key)`: `null` for a missing key. */
    function GetItem(key: string): (r: Option<string>)
      reads this
      ensures r.Some? <==> key in localStorage
      ensures r.Some? ==> r.value == localStorage[key]
    {
      if key in localStorage then Some(localStorage[key]) else None
    }

    /** `localStorage.setItem(key, value)`. */
    method SetItem(key: string, value: string)
      modifies this
      ensures localStorage == old(localStorage)[key := value]
      ensures cookies == old(cookies) && location == old(location)
    {
      localStorage := localStorage[key := value];
    }

    /** `localStorage.removeItem(key)`. */
    method RemoveItem(key: string)
      modifies this
      ensures localStorage == old(localStorage) - {key}
      ensures cookies == old(cookies) && location == old(location)
    {
      localStorage := localStorage - {key};
    }

    /** A `document.cookie` write with a positive `max-age`: the cookie is
        set, replacing any cookie of that name. */
    method SetCookie(name: string, cookie: Cookie)
      modifies this
      ensures cookies == old(cookies)[name := cookie]
      ensures localStorage == old(localStorage) && location == old(location)
    {
      cookies := cookies[name := cookie];
    }

    /** A `document.cookie` write whose expiry lies in the past: the cookie
        is deleted. */
    method ExpireCookie(name: string)
      modifies this
      ensures cookies == old(cookies) - {name}
      ensures localStorage == old(localStorage) && location == old(location)
    {
      cookies := cookies - {name};
    }

    /** `window.location.href = url` or `router.push(url)`. */
    method Navigate(url: string)
      modifies this
      ensures location == url
      ensures localStorage == old(localStorage) && cookies == old(cookies)
    {
      location := url;
    }
  }
}
