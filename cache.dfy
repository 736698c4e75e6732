/** The Redis-backed response cache (cache.py). The Redis server is an abstract map from
    the literal query string to a stored entry with an absolute expiry time; the `client`
    field is the flag `available`; a backend exception during one call is the flag `fault`. */
module Cache {
  import opened Base

  /** The default time-to-live, in seconds. */
  const DefaultTtl: int := 3600

  /** The cached `{answer, sources}` dictionary. */
  datatype Response = Response(answer: string, sources: seq<string>)

  /** What the server holds under a key: JSON written by `set` (JSON encoding and decoding
      are taken as an identity round trip), an empty string, or text that does not parse. */
  datatype Payload = Encoded(response: Response) | EmptyText | Malformed

  datatype Entry = Entry(payload: Payload, expiresAt: int)

  /** `available` is `client is not None`; `server` is the Redis server's contents. */
  datatype CacheState = CacheState(available: bool, ttl: int, server: map<string, Entry>)

  /** What `get(query)` returns at time `now`. */
  function Lookup(s: CacheState, query: string, now: int, fault: bool): Option<Response>
  {
    if !s.available || fault then None
    else if query !in s.server || s.server[query].expiresAt <= now then None
    else match s.server[query].payload
      case Encoded(r) => Some(r)
      case EmptyText => None
      case Malformed => None
  }

  /** The cache after `set(query, response)` at time `now`. Redis refuses a `setex` whose
      time-to-live is not positive; that error, like any other, is swallowed. */
  function Store(s: CacheState, query: string, response: Response, now: int, fault: bool): CacheState
  {
    if !s.available || fault || s.ttl <= 0 then s
    else s.(server := s.server[query := Entry(Encoded(response), now + s.ttl)])
  }

  /** A stored response is read back unchanged until its time-to-live runs out. */
  lemma StoreThenLookup(s: CacheState, query: string, response: Response, now: int, later: int)
    requires s.available && s.ttl > 0 && later < now + s.ttl
    ensures Lookup(Store(s, query, response, now, false), query, later, false) == Some(response)
  {
  }

  /** Once the time-to-live has passed, the stored response is no longer returned. */
  lemma StoredEntryExpires(s: CacheState, query: string, response: Response, now: int, later: int, fault: bool)
    requires s.available && s.ttl > 0 && later >= now + s.ttl
    ensures Lookup(Store(s, query, response, now, false), query, later, fault) == None
  {
  }

  /** `set` changes at most the entry of its own key. */
  lemma StoreOnlyTouchesKey(s: CacheState, query: string, response: Response, now: int, fault: bool,
                            other: string, later: int, readFault: bool)
    requires other != query
    ensures Store(s, query, response, now, fault).available == s.available
    ensures Store(s, query, response, now, fault).server.Keys <= s.server.Keys + {query}
    ensures Lookup(Store(s, query, response, now, fault), other, later, readFault) == Lookup(s, other, later, readFault)
  {
  }

  /** Without a client (Redis unreachable at startup, or after `cleanup`) the cache is an
      always-miss, always-no-op component. */
  lemma DegradedCache(s: CacheState, query: string, response: Response, now: int, fault: bool)
    requires !s.available
    ensures Lookup(s, query, now, fault) == None
    ensures Store(s, query, response, now, fault) == s
  {
  }

  /** A backend exception turns `get` into a miss and `set` into a no-op. */
  lemma FaultsAreSwallowed(s: CacheState, query: string, response: Response, now: int)
    ensures Lookup(s, query, now, true) == None
    ensures Store(s, query, response, now, true) == s
  {
  }

  /** An empty stored string is falsy and text that fails to parse raises inside the `try`:
      both read as a miss. */
  lemma UndecodableIsMiss(s: CacheState, query: string, now: int, fault: bool)
    requires query in s.server && !s.server[query].payload.Encoded?
    ensures Lookup(s, query, now, fault) == None
  {
  }

  class ResponseCache {
    const ttl: int
    var available: bool
    var server: map<string, Entry>

    function State(): CacheState
      reads this
    {
      CacheState(available, ttl, server)
    }

    /** `Cache(ttl=ttl)` attached to a Redis server that already holds `server`. */
    constructor (ttl: int, server: map<string, Entry>)
      ensures State() == CacheState(false, ttl, server)
    {
      this.ttl := ttl;
      this.server := server;
      available := false;
    }

    /** Connects and pings; any failure leaves `client` as None. Never raises. */
    method Initialize(reachable: bool)
      modifies this
      ensures State() == old(State()).(available := reachable)
    {
      available := reachable;
    }

    method Get(query: string, now: int, fault: bool) returns (r: Option<Response>)
      ensures r == Lookup(State(), query, now, fault)
    {
      if !available {
        return None;
      }
      if fault {
        return None;
      }
      r := None;
      if query in server && now < server[query].expiresAt {
        match server[query].payload {
          case Encoded(response) => r := Some(response);
          case EmptyText =>
          case Malformed =>
        }
      }
    }

    method Set(query: string, response: Response, now: int, fault: bool)
      modifies this
      ensures State() == Store(old(State()), query, response, now, fault)
    {
      if !available {
        return;
      }
      if !fault && ttl > 0 {
        server := server[query := Entry(Encoded(response), now + ttl)];
      }
    }

    /** Closes the connection if there is one; calling it again changes nothing. */
    method Cleanup()
      modifies this
      ensures State() == old(State()).(available := false)
    {
      if available {
        available := false;
      }
    }
  }
}
