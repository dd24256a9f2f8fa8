/**
 * The session store backed by the "session-cache" cache: sessions by id,
 * created on first retrieval, with the id of each new session attached to the
 * exchange that asked for it.
 */
module Sessions {
  import opened Wrappers

  /** DefaultSession: an id fixed at creation and mutable attributes. */
  class Session {
    const id: string
    var attributes: map<string, string>

    constructor (id: string)
      ensures this.id == id && attributes == map[]
    {
      this.id := id;
      attributes := map[];
    }

    method SetAttribute(name: string, value: string)
      modifies this
      ensures attributes == old(attributes)[name := value]
    {
      attributes := attributes[name := value];
    }

    function GetAttribute(name: string): (r: Option<string>)
      reads this
      ensures r.Some? <==> name in attributes
      ensures r.Some? ==> r.value == attributes[name]
    {
      if name in attributes then Some(attributes[name]) else None
    }
  }

  /** The HTTP exchange, reduced to the session ids the id manager attached to
      it, in order. */
  class Exchange {
    var attachedIds: seq<string>

    constructor ()
      ensures attachedIds == []
    {
      attachedIds := [];
    }

    /** SessionIdManager.attachSessionId. */
    method AttachSessionId(id: string)
      modifies this
      ensures attachedIds == old(attachedIds) + [id]
    {
      attachedIds := attachedIds + [id];
    }
  }

  class CaffeineSessionStore {
    var sessionCache: map<string, Session>

    /** Every session createAndStoreNewSession made, in order. */
    ghost var created: seq<Session>

    constructor ()
      ensures sessionCache == map[] && created == []
    {
      sessionCache := map[];
      created := [];
    }

    /** createOrRetrieveSession: a compute-if-absent on the session cache with
        createAndStoreNewSession as the mapping function. `sessionId` is what
        the id manager reads from the exchange. */
    method CreateOrRetrieveSession(exchange: Exchange, sessionId: string) returns (session: Session)
      modifies this, exchange
      ensures sessionId in old(sessionCache) ==>
        && session == old(sessionCache)[sessionId]
        && unchanged(this) && unchanged(exchange)
      ensures sessionId !in old(sessionCache) ==>
        && fresh(session) && session.id == sessionId && session.attributes == map[]
        && sessionCache == old(sessionCache)[sessionId := session]
        && exchange.attachedIds == old(exchange.attachedIds) + [sessionId]
        && created == old(created) + [session]
      ensures sessionId in sessionCache && sessionCache[sessionId] == session
    {
      if sessionId in sessionCache {
        return sessionCache[sessionId];
      }
      session := CreateAndStoreNewSession(sessionId, exchange);
      sessionCache := sessionCache[sessionId := session];
    }

    /** createAndStoreNewSession: a new session with the given id, whose id is
        attached to the exchange. Despite its name it stores nothing: storing
        is done by the compute-if-absent that calls it. */
    method CreateAndStoreNewSession(sessionId: string, exchange: Exchange) returns (session: Session)
      modifies this, exchange
      ensures fresh(session) && session.id == sessionId && session.attributes == map[]
      ensures exchange.attachedIds == old(exchange.attachedIds) + [sessionId]
      ensures sessionCache == old(sessionCache)
      ensures created == old(created) + [session]
    {
      session := new Session(sessionId);
      exchange.AttachSessionId(session.id);
      created := created + [session];
    }

    /** invalidateSession: removes the entry under the session's id. */
    method InvalidateSession(session: Session)
      modifies this
      ensures sessionCache == old(sessionCache) - {session.id}
      ensures created == old(created)
    {
      sessionCache := sessionCache - {session.id};
    }

    /** flush: stores the session under its own id. */
    method Flush(session: Session)
      modifies this
      ensures sessionCache == old(sessionCache)[session.id := session]
      ensures created == old(created)
    {
      StoreSession(session.id, session);
    }

    /** getSessionFromCache: the cached session, or null; the cache is only read. */
    method GetSessionFromCache(sessionId: string) returns (r: Option<Session>)
      ensures r.Some? <==> sessionId in sessionCache
      ensures r.Some? ==> r.value == sessionCache[sessionId]
    {
      r := if sessionId in sessionCache then Some(sessionCache[sessionId]) else None;
    }

    /** storeSession: puts the session under the given id, replacing any. */
    method StoreSession(sessionId: string, session: Session)
      modifies this
      ensures sessionCache == old(sessionCache)[sessionId := session]
      ensures created == old(created)
    {
      sessionCache := sessionCache[sessionId := session];
    }
  }
}
