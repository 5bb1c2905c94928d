/**
  The in-memory session store (interview/session_store.go): a map from
  session ID to the shared session object. The mutex only serialises
  access and is not modelled.
 */
module SessionStore {
  import opened Wrappers
  import opened Models

  class SessionStore {
    var sessions: map<string, Session>

    /** Every stored session sits under its own ID. */
    ghost predicate Valid()
      reads this, sessions.Values
    {
      forall k :: k in sessions ==> sessions[k].id == k
    }

    /** The package-level `make(map[string]*Session)`. */
    constructor ()
      ensures sessions == map[] && Valid()
    {
      sessions := map[];
    }

    /**
      SaveSession: stamp the session with the current clock and store it
      under its ID, replacing any previous entry; every other entry stays.
     */
    method SaveSession(s: Session, now: Time)
      requires Valid()
      modifies this, s`updatedAt
      ensures s.updatedAt == now
      ensures sessions == old(sessions)[s.id := s]
      ensures Valid()
    {
      s.updatedAt := now;
      sessions := sessions[s.id := s];
    }

    /**
      GetSession: found exactly when some session was saved under `id`, and
      then it is that very object, so changes made through it are changes
      to the stored session.
     */
    function GetSession(id: string): (r: Option<Session>)
      reads this
      ensures r.Some? <==> id in sessions
      ensures r.Some? ==> r.value == sessions[id]
    {
      if id in sessions then Some(sessions[id]) else None
    }
  }

  /**
    The round trip of the repository's session-store test: a saved session
    is found under its ID, it is the same object, and a change made after
    saving is seen through the store once it is saved again.
   */
  method SaveGetRoundTrip(store: SessionStore, s: Session, a: Answer, now: Time, later: Time)
    requires store.Valid()
    modifies store, s
    ensures store.Valid()
    ensures s.id in store.sessions && store.sessions[s.id] == s
    ensures store.sessions[s.id].updatedAt == later
    ensures store.sessions[s.id].answers == old(s.answers) + [a]
  {
    store.SaveSession(s, now);
    var got := store.GetSession(s.id).value;
    got.answers := got.answers + [a];
    store.SaveSession(got, later);
  }
}
