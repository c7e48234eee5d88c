/**
  The login as one browser keeps it in cookies page scripts can read (Front-End/lib/session.ts):
  the two tokens of an old session, one that never moved to HttpOnly cookies, and the "logged in" flag.
  Every tab of the browser shares them.
 */
module Session {
  import opened Wrappers

  type Token = nat

  datatype Cookies = Cookies(access: Option<Token>, refresh: Option<Token>, loggedIn: bool)

  /** Drops the readable tokens; the flag stays. */
  function ClearLegacySession(c: Cookies): Cookies {
    c.(access := None, refresh := None)
  }

  /** Keeps tokens the API answered with; without an access token there is nothing to keep. */
  function SaveSession(c: Cookies, access: Option<Token>, refresh: Option<Token>): Cookies {
    if access.None? then c
    else c.(access := access, refresh := if refresh.Some? then refresh else c.refresh)
  }

  /** Nothing readable is left; the API is not told. */
  function ClearLocalSession(c: Cookies): Cookies {
    ClearLegacySession(c).(loggedIn := false)
  }
}
