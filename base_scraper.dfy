/** The plain HTTP base scraper: its only state is the HTTP client session,
    created on demand and released on close. */
module BaseScraperModel {
  import opened Handles

  class BaseScraper {
    var session: HttpSession?

    /** `BaseScraper(source_config)`: no session yet. */
    constructor ()
      ensures session == null
    {
      session := null;
    }

    /** `init_session`: creates a session only when there is none, so a
        second call keeps the same one. */
    method InitSession()
      modifies this`session
      ensures old(session) != null ==> session == old(session)
      ensures old(session) == null ==> session != null && fresh(session) && session.open
    {
      if session == null {
        session := new HttpSession();
      }
    }

    /** `close`: closes and clears the session; nothing happens when there
        is none. The close is not guarded: when it raises, the session stays
        in place and the exception propagates. */
    method Close(closeOk: bool) returns (ok: bool)
      modifies this`session, session
      ensures ok == (old(session) == null || closeOk)
      ensures ok ==> session == null && (old(session) != null ==> !old(session).open)
      ensures !ok ==> session == old(session)
    {
      if session != null {
        if !closeOk {
          return false;
        }
        session.Close();
        session := null;
      }
      ok := true;
    }

    /** `__aenter__`: the session is initialised. */
    method Enter()
      modifies this`session
      ensures session != null
      ensures old(session) != null ==> session == old(session)
    {
      InitSession();
    }

    /** `__aexit__`: the session is closed. */
    method Exit(closeOk: bool) returns (ok: bool)
      modifies this`session, session
      ensures ok == (old(session) == null || closeOk)
      ensures ok ==> session == null && (old(session) != null ==> !old(session).open)
      ensures !ok ==> session == old(session)
    {
      ok := Close(closeOk);
    }
  }
}
