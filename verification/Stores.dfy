/** The three stores over their caches, as objects that the handlers share. */
module Stores {
  import opened Basics
  import opened Entities
  import opened Protocol

  datatype StoreError = CookieMalformed | CacheFailed | NotFound

  /** Correlations, one slot per browser, found through the cookie of the request. */
  class CorrelationStore {
    var slots: Cache<Correlation>

    constructor ()
      ensures slots == map[]
    {
      slots := map[];
    }

    /** The correlation and its slot, if the cookie names a live one. */
    method GetFromCookie(cookie: Cookie, now: int, ok: bool) returns (r: Result<Option<(string, Correlation)>, StoreError>)
      ensures r.Err? <==> cookie.Malformed? || (cookie.Named? && !ok)
      ensures r.Ok? && r.value.None? ==> NamedSlot(slots, cookie, now).None?
      ensures r.Ok? && r.value.Some? ==>
        r.value.value.0 == CookieSlot(cookie) && NamedSlot(slots, cookie, now) == Some(r.value.value.1)
    {
      match cookie
      case NoCookie => return Ok(None);
      case Malformed => return Err(CookieMalformed);
      case Named(id) =>
        if !ok {
          return Err(CacheFailed);
        }
        var cor := Lookup(slots, id, now);
        if cor.None? {
          return Ok(None);
        }
        return Ok(Some((id, cor.value)));
    }

    /** Opens a new slot under `ulid`, resets the browser's slot for a new request, or records the session in it. */
    method Set(cookie: Cookie, correlation: Correlation, ulid: string, now: int, ok: bool)
      returns (result: Option<(string, Correlation)>)
      modifies this
      ensures SlotResult(slots, result) == SetSlot(old(slots), cookie, correlation, ulid, now, ok)
      ensures result.None? ==> slots == old(slots)
      ensures result.Some? && correlation.id == "" ==> result.value.1 == NewCorrelation(correlation)
    {
      var found := GetFromCookie(cookie, now, ok);
      if found.Err? || !ok {
        return None;
      }
      var id, cor := ulid, NewCorrelation(correlation);
      if found.value.Some? && found.value.value.1.clientID == correlation.clientID {
        id, cor := found.value.value.0, found.value.value.1;
        if correlation.id == "" {
          cor := cor.(redirectURI := correlation.redirectURI);
          cor := cor.(nonce := correlation.nonce);
          cor := cor.(state := correlation.state);
          cor := cor.(codeChallenge := correlation.codeChallenge);
          cor := cor.(codeChallengeMethod := correlation.codeChallengeMethod);
          cor := cor.(id := "");
          cor := cor.(errorCode := "");
          cor := cor.(managedByProvider := false);
          cor := cor.(sessionCreated := None);
          cor := cor.(tosTargetURI := None);
        } else {
          cor := cor.(id := correlation.id);
          cor := cor.(errorCode := correlation.errorCode);
        }
      }
      slots := slots[id := Entry(cor, now + SLOT_TTL)];
      return Some((id, cor));
    }

    method Get(cookie: Cookie, now: int, ok: bool) returns (r: Result<Option<Correlation>, StoreError>)
      ensures r.Err? <==> cookie.Malformed? || (cookie.Named? && !ok)
      ensures r.Ok? ==> r.value == NamedSlot(slots, cookie, now)
    {
      var found := GetFromCookie(cookie, now, ok);
      if found.Err? {
        return Err(found.error);
      }
      r := Ok(if found.value.Some? then Some(found.value.value.1) else None);
    }

    method Delete(cookie: Cookie, ok: bool)
      modifies this
      ensures slots == DeleteSlot(old(slots), cookie, ok)
    {
      if cookie.Named? && ok {
        slots := slots - {cookie.slot};
      }
    }

    /** The cache may lose entries at any time. */
    method Evict(keys: set<string>)
      modifies this
      ensures slots == old(slots) - keys
    {
      slots := slots - keys;
    }
  }

  /** One-time codes for the sessions of finished flows. */
  class OTTStore {
    var codes: Cache<OneTimeToken>

    constructor ()
      ensures codes == map[]
    {
      codes := map[];
    }

    method GenerateToken(session: Correlation, ulid: string, now: int, ok: bool) returns (token: Option<OneTimeToken>)
      modifies this
      ensures token == if ok then Some(NewToken(ulid, session)) else None
      ensures codes == if ok then old(codes)[ulid := Entry(NewToken(ulid, session), now + CODE_TTL)] else old(codes)
    {
      var oneTimeToken := OneTimeToken(ulid, session.redirectURI, [session.redirectURI], session.id, session.sessionCreated);
      if !ok {
        return None;
      }
      codes := codes[ulid := Entry(oneTimeToken, now + CODE_TTL)];
      return Some(oneTimeToken);
    }

    /** The code, if it is stored and its three minutes are not over. */
    method GetToken(token: string, now: int, ok: bool) returns (r: Result<Option<OneTimeToken>, StoreError>)
      ensures r.Err? <==> !ok
      ensures r.Err? ==> r.error == CacheFailed
      ensures r.Ok? ==> (r.value.Some? <==> token in codes && now < codes[token].deadline)
      ensures r.Ok? && r.value.Some? ==> r.value.value == codes[token].value
    {
      if !ok {
        return Err(CacheFailed);
      }
      r := Ok(Lookup(codes, token, now));
    }

    /** Reads a code and deletes it; a failed delete does not stop the redemption. */
    method RedeemToken(token: string, now: int, readOk: bool, deleteOk: bool)
      returns (r: Result<Option<OneTimeToken>, StoreError>)
      modifies this
      ensures r == if readOk then Ok(Lookup(old(codes), token, now)) else Err(CacheFailed)
      ensures codes == if readOk && deleteOk then Drop(old(codes), token) else old(codes)
      ensures readOk && deleteOk ==> Lookup(codes, token, now).None?
    {
      var value := GetToken(token, now, readOk);
      if value.Err? {
        return value;
      }
      if deleteOk {
        codes := codes - {token};
      }
      return value;
    }

    /** The cache may lose entries at any time. */
    method Evict(keys: set<string>)
      modifies this
      ensures codes == old(codes) - keys
    {
      codes := codes - keys;
    }
  }

  /** Sessions in a cache whose entries live as long as the session timeout. */
  class CacheSessionStore {
    const ttl: int
    var sessions: Cache<Session>

    constructor (ttl: int)
      ensures this.ttl == ttl && sessions == map[]
    {
      this.ttl := ttl;
      sessions := map[];
    }

    method GetSessionByID(id: string, now: int, ok: bool) returns (r: Result<Session, StoreError>)
      ensures r.Ok? <==> ok && Lookup(sessions, id, now).Some?
      ensures r.Ok? ==> Lookup(sessions, id, now) == Some(r.value)
      ensures r == Err(NotFound) <==> ok && Lookup(sessions, id, now).None?
    {
      if !ok {
        return Err(CacheFailed);
      }
      var session := Lookup(sessions, id, now);
      if session.None? {
        return Err(NotFound);
      }
      return Ok(session.value);
    }

    /** Stores a session, under a new name if it has none. */
    method Create(session: Session, ulid: string, now: int, ok: bool) returns (r: Result<Session, StoreError>)
      modifies this
      ensures r.Ok? <==> ok
      ensures r.Ok? ==> r.value == session.(id := if session.id == "" then ulid else session.id)
      ensures sessions == if r.Ok? then old(sessions)[r.value.id := Entry(r.value, now + ttl)] else old(sessions)
    {
      var created := session;
      if created.id == "" {
        created := created.(id := ulid);
      }
      if !ok {
        return Err(CacheFailed);
      }
      sessions := sessions[created.id := Entry(created, now + ttl)];
      return Ok(created);
    }

    /** Replaces a session whole and gives it a new deadline. */
    method Update(session: Session, now: int, ok: bool) returns (r: Result<Session, StoreError>)
      modifies this
      ensures r.Ok? <==> session.id != "" && ok
      ensures r.Ok? ==> r.value == session
      ensures sessions == if r.Ok? then old(sessions)[session.id := Entry(session, now + ttl)] else old(sessions)
    {
      if session.id == "" {
        return Err(NotFound);
      }
      if !ok {
        return Err(CacheFailed);
      }
      sessions := sessions[session.id := Entry(session, now + ttl)];
      return Ok(session);
    }

    /** Moves the last access to now; a failed write is ignored, and the caller still gets the extended copy. */
    method Extend(id: string, now: int, readOk: bool, writeOk: bool) returns (r: Result<Session, StoreError>)
      modifies this
      ensures r.Ok? <==> |id| <= ULID_LENGTH && readOk && Lookup(old(sessions), id, now).Some?
      ensures r.Ok? ==> r.value == Lookup(old(sessions), id, now).value.(lastAccessed := Some(now))
      ensures sessions ==
        if r.Ok? && writeOk then old(sessions)[r.value.id := Entry(r.value, now + ttl)] else old(sessions)
    {
      if |id| > ULID_LENGTH {
        return Err(NotFound);
      }
      var found := GetSessionByID(id, now, readOk);
      if found.Err? {
        return found;
      }
      var session := found.value.(lastAccessed := Some(now));
      if writeOk {
        sessions := sessions[session.id := Entry(session, now + ttl)];
      }
      return Ok(session);
    }

    method Delete(id: string, ok: bool) returns (deleted: bool)
      modifies this
      ensures deleted == ok
      ensures sessions == if ok then Drop(old(sessions), id) else old(sessions)
    {
      if ok {
        sessions := sessions - {id};
      }
      return ok;
    }

    /** The cache may lose entries at any time. */
    method Evict(keys: set<string>)
      modifies this
      ensures sessions == old(sessions) - keys
    {
      sessions := sessions - keys;
    }
  }
}
