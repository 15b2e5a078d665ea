/** The plugin's detector state and the three operations that work on it: installing a
  * configuration (`initSettings`), evaluating a request (`isFlooding`) and the middleware
  * around it (`rateLimiter`). Each method is proved to do what the matching function of
  * FloodSpec describes. */
module Library {
  import opened FloodSpec
  import FloodProperties

  /** The `route.clients.filter(...)` pass: drops every record that started before `cutoff`
    * and remembers, in `found`, the last surviving record of `ip`. */
  method FilterClients(clients: seq<Client>, cutoff: int, ip: string) returns (kept: seq<Client>, found: Option<nat>)
    ensures kept == Expire(clients, cutoff)
    ensures found == Lookup(kept, ip)
  {
    kept, found := [], None;
    var i := 0;
    while i < |clients|
      invariant 0 <= i <= |clients|
      invariant kept == Expire(clients[..i], cutoff)
      invariant found == Lookup(kept, ip)
    {
      var client := clients[i];
      assert clients[..i + 1][..i] == clients[..i];
      if client.start >= cutoff {
        if client.ip == ip {
          found := Some(|kept|);
        }
        kept := kept + [client];
      }
      i := i + 1;
    }
    assert clients[..i] == clients;
  }

  /** Lines 33-56 of `isFlooding` for the matched rule: the filter, then reuse or push of the
    * requester's record `match`, then one more request counted on it. */
  method TrackRequest(clients: seq<Client>, ip: string, now: int, cutoff: int) returns (updated: seq<Client>, at: nat)
    ensures Tracked(updated, at) == Track(clients, ip, now, cutoff)
  {
    var found;
    updated, found := FilterClients(clients, cutoff, ip);
    if found.None? {
      updated := updated + [Client(ip, now, 0)];
      at := |updated| - 1;
    } else {
      at := found.value;
    }
    updated := updated[at := Bump(updated[at])];
  }

  /** The plugin's `settings` object. */
  class FloodDetector {
    var guestOnly: int
    var routes: seq<Route>

    ghost predicate Valid()
      reads this
    {
      WellFormed(routes)
    }

    /** The detector comes into being with its first configuration: `settings` is only usable
      * once `appLoad` has handed a configuration to `initSettings`. */
    constructor (settings: Settings, compile: string -> string -> bool)
      ensures Valid()
      ensures guestOnly == settings.guestOnly && routes == Install(settings.routes, compile)
    {
      new;
      InitSettings(settings, compile);
    }

    /** `initSettings(settings)`: installs a configuration, compiling every rule's pattern with
      * `compile` and giving every rule an empty client list. */
    method InitSettings(settings: Settings, compile: string -> string -> bool)
      modifies this
      ensures Valid()
      ensures guestOnly == settings.guestOnly && routes == Install(settings.routes, compile)
    {
      guestOnly := settings.guestOnly;
      var installed: seq<Route> := [];
      var i := 0;
      while i < |settings.routes|
        invariant 0 <= i <= |settings.routes|
        invariant installed == Install(settings.routes[..i], compile)
      {
        var config := settings.routes[i];
        installed := installed + [Route(config.path, compile(config.path), config.max, config.time, config.comment, [])];
        i := i + 1;
      }
      assert settings.routes[..i] == settings.routes;
      routes := installed;
    }

    /** `isFlooding(url, ip)` with the clock reading `now`: `None` allows the request, `Some(t)`
      * denies it and asks the client to retry after `t` seconds. */
    method IsFlooding(url: string, ip: string, now: int) returns (retryAfter: Option<int>)
      requires Valid()
      modifies this
      ensures Valid() && guestOnly == old(guestOnly)
      ensures Outcome(routes, retryAfter) == Evaluate(old(routes), url, ip, now)
    {
      retryAfter := None;
      FloodProperties.EvaluateWellFormed(routes, url, ip, now);
      var i := 0;
      while i < |routes|
        invariant 0 <= i <= |routes| && routes == old(routes)
        invariant forall j :: 0 <= j < i ==> !routes[j].re(url)
      {
        var route := routes[i];
        if route.re(url) {
          assert FirstMatch(routes, url) == Some(i);
          if route.time == 0 {
            assert Evaluate(routes, url, ip, now) == Outcome(routes, None);
            return;
          }
          var clients, at := TrackRequest(route.clients, ip, now, Cutoff(now, route.time));
          if clients[at].count > route.max {
            retryAfter := Some(route.time);
          }
          routes := routes[i := route.(clients := clients)];
          return;
        }
        i := i + 1;
      }
      assert FirstMatch(routes, url).None?;
    }

    /** `rateLimiter(req, res, next)` for a request by user `uid` (0 for a guest) from `ip`. */
    method RateLimiter(uid: int, url: string, ip: string, now: int) returns (response: Response)
      requires Valid()
      modifies this
      ensures Valid() && guestOnly == old(guestOnly)
      ensures Admission(routes, response) == RateLimit(old(guestOnly), old(routes), uid, url, ip, now)
    {
      if Truthy(uid) && Truthy(guestOnly) {
        return Next;
      }
      var retryAfter := IsFlooding(url, ip, now);
      if retryAfter.None? {
        return Next;
      }
      response := TooManyRequests(retryAfter.value);
    }
  }
}
