/**
 * The in-memory session store: a map from session id to the session record (token,
 * login, optional scope and creation time), and a separate map from a short id to
 * the OAuth state sent to the identity provider, consumed at most once on retrieval.
 * The clock and the random suffix of a new session id are parameters.
 */
module Sessions {
  import opened JsText

  /** What the login flow hands to `createSession`. */
  datatype SessionData = SessionData(accessToken: string, login: string, scope: Option<string>)

  /** A stored session: the supplied fields plus `created_at`. */
  datatype Session = Session(data: SessionData, createdAt: string)

  /** The id `createSession` allocates from the clock reading and the random suffix. */
  function SessionId(nowMs: nat, random: string): (id: string)
    ensures |id| > 5 && id[..5] == "sess_"
  {
    "sess_" + NatToString(nowMs) + "_" + random
  }

  /** Ids made at different clock readings differ, whatever their random suffixes. */
  lemma SessionIdsOfDistinctTimesDiffer(t1: nat, t2: nat, r1: string, r2: string)
    requires t1 != t2
    ensures SessionId(t1, r1) != SessionId(t2, r2)
  {
    var a := NatToString(t1);
    var b := NatToString(t2);
    if SessionId(t1, r1) == SessionId(t2, r2) {
      assert SessionId(t1, r1)[5..] == a + "_" + r1;
      assert SessionId(t2, r2)[5..] == b + "_" + r2;
      DigitsBeforeSeparator(a, b, '_', r1, r2);
      NatToStringInjective(t1, t2);
    }
  }

  class SessionStore {
    /** The module-level `sessions` map. */
    var sessions: map<string, Session>
    /** The module-level `oauthStates` map. */
    var oauthStates: map<string, string>

    constructor ()
      ensures sessions == map[] && oauthStates == map[]
    {
      sessions := map[];
      oauthStates := map[];
    }

    /**
     * `createSession(data)`: stores the data with the creation time under a new id
     * and returns the id. The OAuth-state map is not touched.
     */
    method CreateSession(data: SessionData, nowMs: nat, random: string, nowIso: string)
      returns (id: string)
      modifies this
      ensures id == SessionId(nowMs, random) && id != ""
      ensures sessions == old(sessions)[id := Session(data, nowIso)]
      ensures oauthStates == old(oauthStates)
    {
      id := SessionId(nowMs, random);
      sessions := sessions[id := Session(data, nowIso)];
    }

    /** `getSession(id)`: the stored session, or None ("undefined") for an unknown id. */
    function GetSession(id: string): (r: Option<Session>)
      reads this
      ensures r.Some? <==> id in sessions
      ensures r.Some? ==> r.value == sessions[id]
    {
      if id in sessions then Some(sessions[id]) else None
    }

    /** `destroySession(id)`: removes that id only; harmless for an unknown id. */
    method DestroySession(id: string)
      modifies this
      ensures sessions == old(sessions) - {id}
      ensures oauthStates == old(oauthStates)
    {
      sessions := sessions - {id};
    }

    /** `setOAuthState(id, state)`: stores (or replaces) the state under `id`. */
    method SetOAuthState(id: string, state: string)
      modifies this
      ensures oauthStates == old(oauthStates)[id := state]
      ensures sessions == old(sessions)
    {
      oauthStates := oauthStates[id := state];
    }

    /**
     * `getAndRemoveOAuthState(id)`: the stored state, or None (null) for an unknown id.
     * The entry is removed only when the state is truthy, so an empty state is
     * returned and stays.
     */
    method GetAndRemoveOAuthState(id: string) returns (r: Option<string>)
      modifies this
      ensures id in old(oauthStates) ==> r == Some(old(oauthStates)[id])
      ensures id !in old(oauthStates) ==> r == None
      ensures Truthy(r) ==> oauthStates == old(oauthStates) - {id}
      ensures !Truthy(r) ==> oauthStates == old(oauthStates)
      ensures sessions == old(sessions)
    {
      if id in oauthStates {
        var state := oauthStates[id];
        if state != "" {
          oauthStates := oauthStates - {id};
        }
        r := Some(state);
      } else {
        r := None;
      }
    }
  }

  /** A created session is found with exactly the supplied fields and its creation time. */
  method CreatedSessionIsFound(data: SessionData, nowMs: nat, random: string, nowIso: string)
    returns (id: string, found: Option<Session>)
    ensures id != "" && found == Some(Session(data, nowIso))
  {
    var store := new SessionStore();
    id := store.CreateSession(data, nowMs, random, nowIso);
    found := store.GetSession(id);
  }

  /** Looking up an id that was never created finds nothing. */
  method UnknownSessionIsNotFound(data: SessionData, nowMs: nat, random: string, nowIso: string, other: string)
    returns (found: Option<Session>)
    requires other != SessionId(nowMs, random)
    ensures found == None
  {
    var store := new SessionStore();
    var _ := store.CreateSession(data, nowMs, random, nowIso);
    found := store.GetSession(other);
  }

  /**
   * Destroying one of two sessions: it is no longer found (also after destroying it a
   * second time) while the other one still is.
   */
  method DestroyRemovesOnlyThatSession(a: SessionData, b: SessionData, t1: nat, t2: nat,
                                       r1: string, r2: string, iso: string)
    returns (gone: Option<Session>, kept: Option<Session>)
    requires t1 != t2
    ensures gone == None && kept == Some(Session(b, iso))
  {
    SessionIdsOfDistinctTimesDiffer(t1, t2, r1, r2);
    var store := new SessionStore();
    var first := store.CreateSession(a, t1, r1, iso);
    var second := store.CreateSession(b, t2, r2, iso);
    store.DestroySession(first);
    store.DestroySession(first);
    gone := store.GetSession(first);
    kept := store.GetSession(second);
  }

  /** A non-empty state is returned once; the second retrieval gets null. */
  method OAuthStateIsSingleUse(id: string, state: string)
    returns (first: Option<string>, second: Option<string>)
    requires state != ""
    ensures first == Some(state) && second == None
  {
    var store := new SessionStore();
    store.SetOAuthState(id, state);
    first := store.GetAndRemoveOAuthState(id);
    second := store.GetAndRemoveOAuthState(id);
  }

  /** An empty state is never consumed: every retrieval returns "". */
  method EmptyOAuthStateIsNotConsumed(id: string)
    returns (first: Option<string>, second: Option<string>)
    ensures first == Some("") && second == Some("")
  {
    var store := new SessionStore();
    store.SetOAuthState(id, "");
    first := store.GetAndRemoveOAuthState(id);
    second := store.GetAndRemoveOAuthState(id);
  }

  /** An unknown OAuth-state id yields null. */
  method UnknownOAuthStateIsNull(id: string, other: string, state: string)
    returns (r: Option<string>)
    requires id != other
    ensures r == None
  {
    var store := new SessionStore();
    store.SetOAuthState(id, state);
    r := store.GetAndRemoveOAuthState(other);
  }

  /** The two maps are independent: session operations leave a stored state in place. */
  method SessionsDoNotTouchOAuthStates(id: string, state: string, data: SessionData,
                                       nowMs: nat, random: string, nowIso: string)
    returns (r: Option<string>)
    ensures r == Some(state)
  {
    var store := new SessionStore();
    store.SetOAuthState(id, state);
    var sid := store.CreateSession(data, nowMs, random, nowIso);
    store.DestroySession(sid);
    store.DestroySession(id);
    r := store.GetAndRemoveOAuthState(id);
  }
}
