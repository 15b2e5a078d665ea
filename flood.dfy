/** The flood detector of the four-twenty-nine plugin, as pure functions over values.
  *
  * A route rule carries a path pattern, a ceiling `max`, a window `time` in seconds, a
  * label and the list of client records it is tracking. One evaluation picks the first
  * rule whose pattern matches the URL, drops the expired records of that rule, reuses or
  * creates the requester's record, bumps its count and denies the request (with the
  * rule's `time` as the retry hint) when the count is over `max`.
  */
module FloodSpec {

  datatype Option<+T> = None | Some(value: T)

  /** A client record `{ip, start, count}`; `start` is a clock reading in milliseconds. */
  datatype Client = Client(ip: string, start: int, count: nat)

  /** A route rule as the detector holds it: `re` is the compiled form of `path`. */
  datatype Route = Route(path: string, re: string -> bool, max: int, time: int, comment: string,
                         clients: seq<Client>)

  /** A route rule as it is configured, before its pattern is compiled. */
  datatype RouteConfig = RouteConfig(path: string, max: int, time: int, comment: string)

  /** A configuration snapshot: the `guestOnly` flag (an integer, truthy when non-zero) and the rules. */
  datatype Settings = Settings(guestOnly: int, routes: seq<RouteConfig>)

  /** The rules after one evaluation, and its verdict: `None` allows, `Some(t)` is a retry-after hint. */
  datatype Outcome = Outcome(routes: seq<Route>, retryAfter: Option<int>)

  /** The requester's record list after lookup-or-create, and where the requester's record is. */
  datatype Tracked = Tracked(clients: seq<Client>, at: nat)

  /** The earliest window start that is still live: `now - time * 1000`. */
  function Cutoff(now: int, time: int): int {
    now - time * 1000
  }

  /** Two rules with the same configuration; only their client lists may differ. */
  ghost predicate SameRule(a: Route, b: Route) {
    a.path == b.path && a.re == b.re && a.max == b.max && a.time == b.time && a.comment == b.comment
  }

  /** No two records of one client list belong to the same address. */
  predicate UniqueIps(clients: seq<Client>) {
    forall i, j :: 0 <= i < j < |clients| ==> clients[i].ip != clients[j].ip
  }

  /** What every evaluation keeps true of the rule list: at most one record per address in every
    * rule, and no records at all in a pass-through (`time == 0`) rule. */
  predicate WellFormed(routes: seq<Route>) {
    forall i :: 0 <= i < |routes| ==>
      UniqueIps(routes[i].clients) && (routes[i].time == 0 ==> routes[i].clients == [])
  }

  /** The index of the first rule whose pattern matches `url` (`Array.prototype.some` stops there). */
  function FirstMatch(routes: seq<Route>, url: string): (r: Option<nat>)
    ensures r.Some? ==> r.value < |routes| && routes[r.value].re(url)
    ensures r.Some? ==> forall i :: 0 <= i < r.value ==> !routes[i].re(url)
    ensures r.None? <==> forall i :: 0 <= i < |routes| ==> !routes[i].re(url)
  {
    if routes == [] then None
    else if routes[0].re(url) then Some(0)
    else
      match FirstMatch(routes[1..], url)
      case None => None
      case Some(k) => Some(k + 1)
  }

  /** The records that survive the expiry filter, in their original order. */
  function Expire(clients: seq<Client>, cutoff: int): (kept: seq<Client>)
    ensures |kept| <= |clients|
    ensures forall c :: c in kept <==> c in clients && cutoff <= c.start
  {
    if clients == [] then []
    else
      var init, last := clients[..|clients| - 1], clients[|clients| - 1];
      assert clients == init + [last];
      Expire(init, cutoff) + (if last.start < cutoff then [] else [last])
  }

  /** The position of the record the filter leaves in `match`: the last one with address `ip`. */
  function Lookup(clients: seq<Client>, ip: string): (r: Option<nat>)
    ensures r.Some? ==> r.value < |clients| && clients[r.value].ip == ip
    ensures r.Some? ==> forall j :: r.value < j < |clients| ==> clients[j].ip != ip
    ensures r.None? <==> forall j :: 0 <= j < |clients| ==> clients[j].ip != ip
  {
    if clients == [] then None
    else if clients[|clients| - 1].ip == ip then Some(|clients| - 1)
    else Lookup(clients[..|clients| - 1], ip)
  }

  /** The request count the list records for `ip` (0 when it has no record). */
  function CountOf(clients: seq<Client>, ip: string): nat {
    match Lookup(clients, ip)
    case None => 0
    case Some(k) => clients[k].count
  }

  /** Expiry, then lookup-or-create of the requester's record, then `match.count++`. */
  function Track(clients: seq<Client>, ip: string, now: int, cutoff: int): (r: Tracked)
    ensures r.at < |r.clients| && Lookup(r.clients, ip) == Some(r.at)
    ensures CountOf(r.clients, ip) == CountOf(Expire(clients, cutoff), ip) + 1
    ensures var kept := Expire(clients, cutoff);
      match Lookup(kept, ip)
      case Some(k) => r.at == k && |r.clients| == |kept| && r.clients[k].start == kept[k].start
      case None => r.at == |kept| == |r.clients| - 1 && r.clients[r.at].start == now
    ensures var kept := Expire(clients, cutoff);
      |kept| <= |r.clients| &&
      forall j :: 0 <= j < |kept| ==>
        r.clients[j].ip == kept[j].ip && r.clients[j].start == kept[j].start &&
        (j != r.at ==> r.clients[j] == kept[j])
  {
    var kept := Expire(clients, cutoff);
    match Lookup(kept, ip)
    case Some(k) =>
      var updated := kept[k := Bump(kept[k])];
      LookupIs(updated, ip, k);
      Tracked(updated, k)
    case None =>
      var pushed := kept + [Client(ip, now, 0)];
      var updated := pushed[|kept| := Bump(pushed[|kept|])];
      LookupIs(updated, ip, |kept|);
      Tracked(updated, |kept|)
  }

  /** The requester's record with one more request counted (library.js:56). */
  function Bump(c: Client): Client {
    c.(count := c.count + 1)
  }

  /** The last record with address `ip` is the one `Lookup` finds. */
  lemma LookupIs(clients: seq<Client>, ip: string, k: nat)
    requires k < |clients| && clients[k].ip == ip
    requires forall j :: k < j < |clients| ==> clients[j].ip != ip
    ensures Lookup(clients, ip) == Some(k)
  {
  }

  /** One call of `isFlooding(url, ip)` at clock reading `now`. */
  function Evaluate(routes: seq<Route>, url: string, ip: string, now: int): (r: Outcome)
    ensures |r.routes| == |routes|
    ensures forall i :: 0 <= i < |routes| ==> SameRule(r.routes[i], routes[i])
    ensures forall i :: 0 <= i < |routes| && FirstMatch(routes, url) != Some(i) ==> r.routes[i] == routes[i]
    ensures FirstMatch(routes, url).None? ==> r == Outcome(routes, None)
    ensures FirstMatch(routes, url).Some? && routes[FirstMatch(routes, url).value].time == 0 ==>
      r == Outcome(routes, None)
    ensures FirstMatch(routes, url).Some? && routes[FirstMatch(routes, url).value].time != 0 ==>
      var k := FirstMatch(routes, url).value;
      (r.retryAfter.Some? <==> CountOf(r.routes[k].clients, ip) > routes[k].max) &&
      (r.retryAfter.Some? ==> r.retryAfter.value == routes[k].time) &&
      CountOf(r.routes[k].clients, ip) == CountOf(Expire(routes[k].clients, Cutoff(now, routes[k].time)), ip) + 1
  {
    match FirstMatch(routes, url)
    case None => Outcome(routes, None)
    case Some(k) =>
      var route := routes[k];
      if route.time == 0 then Outcome(routes, None)
      else
        var t := Track(route.clients, ip, now, Cutoff(now, route.time));
        var retryAfter := if t.clients[t.at].count > route.max then Some(route.time) else None;
        Outcome(routes[k := route.(clients := t.clients)], retryAfter)
  }

  /** The detector's rules after `initSettings` (library.js:10-13): each configured rule, in
    * order, gains the compiled form of its pattern and an empty client list, so no client
    * record survives a reconfiguration and the invariant holds. */
  function Install(configs: seq<RouteConfig>, compile: string -> string -> bool): (routes: seq<Route>)
    ensures |routes| == |configs| && WellFormed(routes)
    ensures forall i :: 0 <= i < |configs| ==>
      routes[i].clients == [] && routes[i].re == compile(configs[i].path) &&
      routes[i].path == configs[i].path && routes[i].max == configs[i].max &&
      routes[i].time == configs[i].time && routes[i].comment == configs[i].comment
  {
    seq(|configs|, i requires 0 <= i < |configs| =>
      Route(configs[i].path, compile(configs[i].path), configs[i].max, configs[i].time, configs[i].comment, []))
  }

  /** The same client sending requests to `url` at the clock readings `times`, in order. */
  function Replay(routes: seq<Route>, url: string, ip: string, times: seq<int>): (r: Outcome)
    ensures |r.routes| == |routes|
    ensures forall i :: 0 <= i < |routes| ==> SameRule(r.routes[i], routes[i])
  {
    if times == [] then Outcome(routes, None)
    else Evaluate(Replay(routes, url, ip, times[..|times| - 1]).routes, url, ip, times[|times| - 1])
  }

  /** What `rateLimiter` does to a request. */
  datatype Response = Next | TooManyRequests(retryAfter: int)

  /** The rules after `rateLimiter` and its response. */
  datatype Admission = Admission(routes: seq<Route>, response: Response)

  /** JavaScript truthiness of a number other than NaN. */
  predicate Truthy(x: int) {
    x != 0
  }

  /** `rateLimiter(req, res, next)`: signed-in users bypass the detector in guest-only mode;
    * otherwise a `null` verdict forwards and any other verdict answers 429 with `Retry-After`. */
  function RateLimit(guestOnly: int, routes: seq<Route>, uid: int, url: string, ip: string, now: int): (r: Admission)
    ensures Truthy(uid) && Truthy(guestOnly) ==> r == Admission(routes, Next)
    ensures r.response.TooManyRequests? ==>
      !(Truthy(uid) && Truthy(guestOnly)) && FirstMatch(routes, url).Some? &&
      r.response.retryAfter == routes[FirstMatch(routes, url).value].time != 0
    ensures !(Truthy(uid) && Truthy(guestOnly)) ==>
      r.routes == Evaluate(routes, url, ip, now).routes &&
      (r.response.Next? <==> Evaluate(routes, url, ip, now).retryAfter.None?)
  {
    if Truthy(uid) && Truthy(guestOnly) then Admission(routes, Next)
    else
      var verdict := Evaluate(routes, url, ip, now);
      match verdict.retryAfter
      case None => Admission(verdict.routes, Next)
      case Some(t) => Admission(verdict.routes, TooManyRequests(t))
  }
}
