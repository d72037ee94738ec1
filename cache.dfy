/** The TTL response cache of cacheMiddleware.js.

    One process-wide map from a key to an entry `{data, expires}` is shared by
    every middleware instance. A request whose key has an entry with
    `now < expires` is answered from the map and the downstream handler is not
    called. Otherwise `res.json` is replaced by a closure (modelled as a
    `Pending`) that, whenever the handler emits a body, stores it with expiry
    `emission time + ttl * 1000` and then sends it on unchanged.

    The pure functions below are the specification; class `Cache` holds the
    map and is proved against them. */
module ResponseCache {
  import opened Js

  /** `ttl = 300` in the middleware's signature, in seconds. */
  const DefaultTtlSeconds: int := 300
  const MillisPerSecond: int := 1000
  /** The status Express sends when nothing set another one. */
  const StatusOk: int := 200

  /** The parts of an inbound request a key function may look at. */
  datatype Request = Request(path: string, query: seq<(string, string)>)

  /** The middleware's first argument: a function of the request, or a fixed key. */
  datatype KeyFn = Derived(f: Request -> string) | Fixed(key: string)

  /** One middleware instance: its key strategy and its ttl in seconds. */
  datatype Config = Config(keyFn: KeyFn, ttl: int)

  datatype Entry<B> = Entry(data: B, expires: int)

  type Store<B> = map<string, Entry<B>>

  /** The replacement `res.json` installed on a miss: it remembers the key and
      the ttl it will store under. */
  datatype Pending = Pending(key: string, ttl: int)

  /** What the lookup decides: answer from the map, or hand on to the handler. */
  datatype Lookup<B> = Hit(data: B) | Miss(pending: Pending)

  /** What the downstream handler does once called: never answer, answer by
      some route other than `json` (`send`, `end`, `sendStatus`, a redirect),
      or call `json` (with whatever status it set) at some clock reading. */
  datatype Downstream<B> = Silent | Replied(status: int) | Json(status: int, body: B, at: int)

  /** What reaches the client: nothing, a reply that bypassed `json` (its
      body is not modelled), or a JSON body. */
  datatype Sent<B> = NothingSent | SentOther(status: int) | Sent(status: int, body: B)

  /** The result of one request: the new map, the reply, and whether the
      downstream handler (`next`) was called. */
  datatype Outcome<B> = Outcome(store: Store<B>, sent: Sent<B>, calledNext: bool)

  /** `cacheMiddleware(keyFn, ttl)`: None is an omitted (`undefined`) ttl,
      which takes the default; an explicit `null` is not modelled. */
  function Configure(keyFn: KeyFn, ttl: Option<int>): (c: Config)
    ensures c.keyFn == keyFn
    ensures ttl.None? ==> c.ttl * MillisPerSecond == 300000
    ensures ttl.Some? ==> c.ttl == ttl.value
  {
    Config(keyFn, if ttl.Some? then ttl.value else DefaultTtlSeconds)
  }

  /** `typeof keyFn === 'function' ? keyFn(req) : keyFn`. */
  function KeyOf(keyFn: KeyFn, req: Request): (key: string)
    ensures keyFn.Fixed? ==> key == keyFn.key
    ensures keyFn.Derived? ==> key == keyFn.f(req)
  {
    match keyFn
    case Derived(f) => f(req)
    case Fixed(k) => k
  }

  /** `cached && Date.now() < cached.expires`. */
  predicate Fresh<B>(m: Store<B>, key: string, now: int) {
    key in m && now < m[key].expires
  }

  /** The expiry the replacement `res.json` computes when it runs at time `t`. */
  function Expiry(ttl: int, t: int): int {
    t + ttl * MillisPerSecond
  }

  /** The lookup at the head of the middleware. It reads the map and changes nothing. */
  function LookupAt<B>(m: Store<B>, c: Config, req: Request, now: int): (r: Lookup<B>)
    ensures r.Hit? <==> Fresh(m, KeyOf(c.keyFn, req), now)
    ensures r.Hit? ==> r.data == m[KeyOf(c.keyFn, req)].data
    ensures r.Miss? ==> r.pending.key == KeyOf(c.keyFn, req) && r.pending.ttl == c.ttl
  {
    var key := KeyOf(c.keyFn, req);
    if Fresh(m, key, now) then Hit(m[key].data) else Miss(Pending(key, c.ttl))
  }

  /** The assignment `cache[key] = { data: body, expires: Date.now() + ttl * 1000 }`. */
  function Write<B>(m: Store<B>, p: Pending, body: B, t: int): (m': Store<B>)
    ensures m'.Keys == m.Keys + {p.key}
    ensures m'[p.key] == Entry(body, Expiry(p.ttl, t))
    ensures forall k :: k in m && k != p.key ==> m'[k] == m[k]
  {
    m[p.key := Entry(body, Expiry(p.ttl, t))]
  }

  /** One request end to end: lookup, then on a miss the handler's outcome. */
  function Serve<B>(m: Store<B>, c: Config, req: Request, now: int, d: Downstream<B>): Outcome<B> {
    match LookupAt(m, c, req, now)
    case Hit(data) => Outcome(m, Sent(StatusOk, data), false)
    case Miss(p) =>
      match d
      case Silent => Outcome(m, NothingSent, true)
      case Replied(status) => Outcome(m, SentOther(status), true)
      case Json(status, body, at) => Outcome(Write(m, p, body, at), Sent(status, body), true)
  }

  /** A request handled by the middleware, with what its handler would do. */
  datatype Event<B> = Event(config: Config, req: Request, now: int, downstream: Downstream<B>)

  /** The map after a sequence of requests, each completed before the next
      starts. Nothing ever removes an entry, stale ones included. */
  function Run<B>(m: Store<B>, events: seq<Event<B>>): (r: Store<B>)
    ensures m.Keys <= r.Keys
    decreases |events|
  {
    if events == [] then m
    else
      var e := events[|events| - 1];
      Serve(Run(m, events[..|events| - 1]), e.config, e.req, e.now, e.downstream).store
  }

  // ---------------------------------------------------------------------------
  // Properties of one request

  /** A hit sends the stored data with the default status, does not call the
      handler, and leaves the map as it was. */
  lemma HitServesStoredData<B>(m: Store<B>, c: Config, req: Request, now: int, d: Downstream<B>)
    requires Fresh(m, KeyOf(c.keyFn, req), now)
    ensures Serve(m, c, req, now, d) == Outcome(m, Sent(StatusOk, m[KeyOf(c.keyFn, req)].data), false)
  {
  }

  /** A miss calls the handler exactly when no fresh entry exists; a handler
      that never calls `json` leaves the map untouched, whether it answers
      some other way (that reply goes out uncached) or not at all. */
  lemma MissCallsHandler<B>(m: Store<B>, c: Config, req: Request, now: int, d: Downstream<B>)
    ensures Serve(m, c, req, now, d).calledNext <==> !Fresh(m, KeyOf(c.keyFn, req), now)
    ensures !Fresh(m, KeyOf(c.keyFn, req), now) && d.Silent? ==>
              Serve(m, c, req, now, d) == Outcome(m, NothingSent, true)
    ensures !Fresh(m, KeyOf(c.keyFn, req), now) && d.Replied? ==>
              Serve(m, c, req, now, d) == Outcome(m, SentOther(d.status), true)
  {
  }

  /** After a miss, an emitted body is stored under the request's key whatever
      the status it was sent with (error bodies included), replacing any prior
      entry, and is sent to the client unchanged. */
  lemma MissStoresEmittedBody<B>(m: Store<B>, c: Config, req: Request, now: int,
                                 status: int, body: B, at: int)
    requires !Fresh(m, KeyOf(c.keyFn, req), now)
    ensures var o := Serve(m, c, req, now, Json(status, body, at));
      && o.sent == Sent(status, body)
      && o.calledNext
      && KeyOf(c.keyFn, req) in o.store
      && o.store[KeyOf(c.keyFn, req)] == Entry(body, at + c.ttl * 1000)
  {
  }

  /** Writing one key leaves every other key's entry, and its absence, as it was. */
  lemma KeyIsolation<B>(m: Store<B>, c: Config, req: Request, now: int, d: Downstream<B>, other: string)
    requires other != KeyOf(c.keyFn, req)
    ensures var m' := Serve(m, c, req, now, d).store;
      (other in m' <==> other in m) && (other in m ==> m'[other] == m[other])
  {
  }

  /** TTL boundary: an entry written at `t` is fresh exactly for reads before
      `t + ttl * 1000`. */
  lemma TtlBoundary<B>(m: Store<B>, p: Pending, body: B, t: int, now: int)
    ensures Fresh(Write(m, p, body, t), p.key, now) <==> now < t + p.ttl * 1000
  {
  }

  /** With a ttl of zero or less, an entry is already stale at the time it is written. */
  lemma NonPositiveTtlNeverHits<B>(m: Store<B>, p: Pending, body: B, t: int, now: int)
    requires p.ttl <= 0 && t <= now
    ensures !Fresh(Write(m, p, body, t), p.key, now)
  {
  }

  /** With the default ttl an entry written at `t` is fresh for 300000 ms. */
  lemma DefaultTtlWindow<B>(m: Store<B>, keyFn: KeyFn, req: Request, body: B, t: int, now: int)
    ensures var p := Pending(KeyOf(keyFn, req), Configure(keyFn, None).ttl);
      Fresh(Write(m, p, body, t), p.key, now) <==> now < t + 300000
  {
  }

  /** Two requests for one key that both miss before either handler emits:
      the body emitted last is the one the map keeps. */
  lemma LastWriteWins<B>(m: Store<B>, c1: Config, c2: Config, req1: Request, req2: Request,
                         now1: int, now2: int, b1: B, t1: int, b2: B, t2: int)
    requires LookupAt(m, c1, req1, now1).Miss? && LookupAt(m, c2, req2, now2).Miss?
    requires KeyOf(c1.keyFn, req1) == KeyOf(c2.keyFn, req2)
    ensures var p1 := LookupAt(m, c1, req1, now1).pending;
      var p2 := LookupAt(m, c2, req2, now2).pending;
      Write(Write(m, p1, b1, t1), p2, b2, t2) == Write(m, p2, b2, t2)
  {
    var p1 := LookupAt(m, c1, req1, now1).pending;
    var p2 := LookupAt(m, c2, req2, now2).pending;
    assert p1.key == p2.key;
  }

  // ---------------------------------------------------------------------------
  // Properties of a sequence of requests

  /** A key no request in the run maps to keeps its entry, or its absence. */
  lemma {:induction false} RunKeepsUntouchedKey<B>(m: Store<B>, events: seq<Event<B>>, k: string)
    requires forall i :: 0 <= i < |events| ==> KeyOf(events[i].config.keyFn, events[i].req) != k
    ensures (k in Run(m, events) <==> k in m)
    ensures k in m ==> Run(m, events)[k] == m[k]
    decreases |events|
  {
    if events != [] {
      var e := events[|events| - 1];
      RunKeepsUntouchedKey(m, events[..|events| - 1], k);
      KeyIsolation(Run(m, events[..|events| - 1]), e.config, e.req, e.now, e.downstream, k);
    }
  }

  /** The map only ever holds what was there before or a body some handler
      emitted for that key, with the expiry computed at its emission. */
  lemma {:induction false} RunEntriesWereEmitted<B>(m: Store<B>, events: seq<Event<B>>, k: string)
    requires k in Run(m, events)
    ensures (k in m && Run(m, events)[k] == m[k]) ||
            exists i :: 0 <= i < |events| && events[i].downstream.Json? &&
              KeyOf(events[i].config.keyFn, events[i].req) == k &&
              Run(m, events)[k] == Entry(events[i].downstream.body,
                                         Expiry(events[i].config.ttl, events[i].downstream.at))
    decreases |events|
  {
    if events != [] {
      var n := |events| - 1;
      var e := events[n];
      var before := Run(m, events[..n]);
      var o := Serve(before, e.config, e.req, e.now, e.downstream);
      if o.store == before {
        RunEntriesWereEmitted(m, events[..n], k);
        if !(k in m && Run(m, events)[k] == m[k]) {
          var i :| 0 <= i < n && events[..n][i].downstream.Json? &&
                   KeyOf(events[..n][i].config.keyFn, events[..n][i].req) == k &&
                   before[k] == Entry(events[..n][i].downstream.body,
                                      Expiry(events[..n][i].config.ttl, events[..n][i].downstream.at));
          assert events[..n][i] == events[i];
        }
      } else if KeyOf(e.config.keyFn, e.req) == k {
        assert e.downstream.Json?;
        assert Run(m, events)[k] == Entry(e.downstream.body, Expiry(e.config.ttl, e.downstream.at));
      } else {
        KeyIsolation(before, e.config, e.req, e.now, e.downstream, k);
        RunEntriesWereEmitted(m, events[..n], k);
        if !(k in m && Run(m, events)[k] == m[k]) {
          var i :| 0 <= i < n && events[..n][i].downstream.Json? &&
                   KeyOf(events[..n][i].config.keyFn, events[..n][i].req) == k &&
                   before[k] == Entry(events[..n][i].downstream.body,
                                      Expiry(events[..n][i].config.ttl, events[..n][i].downstream.at));
          assert events[..n][i] == events[i];
        }
      }
    }
  }

  /** The scenario of a 5-second ttl on one key: a miss at 0 ms stores the
      handler's body; at 3000 ms the same key is a hit and the handler is not
      called; at 6000 ms the entry is stale and the handler is called again. */
  lemma FiveSecondScenario<B>(key: string, req: Request, body: B, later: Downstream<B>)
    ensures var c := Config(Fixed(key), 5);
      var o1 := Serve(map[], c, req, 0, Json(200, body, 0));
      var o2 := Serve(o1.store, c, req, 3000, later);
      var o3 := Serve(o2.store, c, req, 6000, later);
      && o1.calledNext && o1.store[key] == Entry(body, 5000)
      && !o2.calledNext && o2.sent == Sent(StatusOk, body) && o2.store == o1.store
      && o3.calledNext
  {
    var c := Config(Fixed(key), 5);
    var o1 := Serve(map[], c, req, 0, Json(200, body, 0));
    assert o1.store == map[key := Entry(body, 5000)];
    assert Fresh(o1.store, key, 3000);
    assert !Fresh(o1.store, key, 6000);
  }

  // ---------------------------------------------------------------------------
  // The module-level `cache` object

  class Cache<B> {
    /** `const cache = {}`: the entries, keyed by the derived key. */
    var entries: Store<B>

    constructor ()
      ensures entries == map[]
    {
      entries := map[];
    }

    /** The head of the middleware: derive the key and test freshness. A hit
        returns the stored data; a miss returns the `res.json` replacement. */
    method Lookup(c: Config, req: Request, now: int) returns (r: Lookup<B>)
      ensures r.Hit? <==> Fresh(entries, KeyOf(c.keyFn, req), now)
      ensures r.Hit? ==> r.data == entries[KeyOf(c.keyFn, req)].data
      ensures r.Miss? ==> r.pending == Pending(KeyOf(c.keyFn, req), c.ttl)
    {
      var key := match c.keyFn case Derived(f) => f(req) case Fixed(k) => k;
      if key in entries && now < entries[key].expires {
        r := Hit(entries[key].data);
      } else {
        r := Miss(Pending(key, c.ttl));
      }
    }

    /** The replacement `res.json(body)` called at time `t`: store, then send
        the body on unchanged. */
    method Json(p: Pending, body: B, t: int) returns (sent: B)
      modifies this
      ensures entries == Write(old(entries), p, body, t)
      ensures sent == body
    {
      entries := entries[p.key := Entry(body, t + p.ttl * MillisPerSecond)];
      sent := body;
    }

    /** A whole request whose handler behaves as `d`, run without interleaving. */
    method Handle(c: Config, req: Request, now: int, d: Downstream<B>) returns (sent: Sent<B>, calledNext: bool)
      modifies this
      ensures Outcome(entries, sent, calledNext) == Serve(old(entries), c, req, now, d)
    {
      var r := Lookup(c, req, now);
      match r
      case Hit(data) =>
        sent, calledNext := Sent(StatusOk, data), false;
      case Miss(p) =>
        calledNext := true;
        match d
        case Silent =>
          sent := NothingSent;
        case Replied(status) =>
          sent := SentOther(status);
        case Json(status, body, at) =>
          var b := Json(p, body, at);
          sent := Sent(status, b);
    }
  }
}
