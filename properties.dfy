/** What the flood detector promises, proved about the functions of FloodSpec. */
module FloodProperties {
  import opened FloodSpec

  // ---------------------------------------------------------------------------
  // The expiry filter

  /** Filtering is done record by record, so the survivors keep their relative order. */
  lemma {:induction false} ExpireAppend(a: seq<Client>, b: seq<Client>, cutoff: int)
    ensures Expire(a + b, cutoff) == Expire(a, cutoff) + Expire(b, cutoff)
    decreases |b|
  {
    if b == [] {
      assert a + b == a;
    } else {
      var init, last := b[..|b| - 1], b[|b| - 1];
      assert (a + b)[..|a + b| - 1] == a + init;
      assert (a + b)[|a + b| - 1] == last;
      ExpireAppend(a, init, cutoff);
    }
  }

  /** A list whose records are all live is left as it is. */
  lemma {:induction false} ExpireAllLive(clients: seq<Client>, cutoff: int)
    requires forall c :: c in clients ==> cutoff <= c.start
    ensures Expire(clients, cutoff) == clients
  {
    if clients != [] {
      var init, last := clients[..|clients| - 1], clients[|clients| - 1];
      assert clients == init + [last];
      assert last in clients;
      forall c | c in init ensures cutoff <= c.start {
        assert c in clients;
      }
      ExpireAllLive(init, cutoff);
    }
  }

  /** Dropping records cannot create a second record for one address. */
  lemma {:induction false} ExpireUnique(clients: seq<Client>, cutoff: int)
    requires UniqueIps(clients)
    ensures UniqueIps(Expire(clients, cutoff))
  {
    if clients != [] {
      var init, last := clients[..|clients| - 1], clients[|clients| - 1];
      ExpireUnique(init, cutoff);
      var kept := Expire(init, cutoff);
      forall c | c in kept ensures c.ip != last.ip {
        var j :| 0 <= j < |init| && init[j] == c;
        assert clients[j] == c;
      }
    }
  }

  /** When the last record of `ip` is live, the filter keeps it and it stays the last one. */
  lemma {:induction false} ExpireKeepsLookup(clients: seq<Client>, cutoff: int, ip: string, j: nat)
    requires Lookup(clients, ip) == Some(j) && cutoff <= clients[j].start
    ensures var kept := Expire(clients, cutoff);
      Lookup(kept, ip).Some? && kept[Lookup(kept, ip).value] == clients[j]
  {
    var init, last := clients[..|clients| - 1], clients[|clients| - 1];
    var kept := Expire(clients, cutoff);
    if last.ip == ip {
      assert kept == Expire(init, cutoff) + [last];
      LookupIs(kept, ip, |kept| - 1);
    } else {
      assert Lookup(init, ip) == Some(j);
      ExpireKeepsLookup(init, cutoff, ip, j);
      var m := Lookup(Expire(init, cutoff), ip).value;
      LookupIs(kept, ip, m);
    }
  }

  /** With at most one record per address, the record `Lookup` finds is the only one. */
  lemma UniqueLookup(clients: seq<Client>, ip: string)
    requires UniqueIps(clients) && Lookup(clients, ip).Some?
    ensures forall c :: c in clients && c.ip == ip ==> c == clients[Lookup(clients, ip).value]
  {
    var a := Lookup(clients, ip).value;
    forall c | c in clients && c.ip == ip ensures c == clients[a] {
      var j :| 0 <= j < |clients| && clients[j] == c;
      assert j == a;
    }
  }

  // ---------------------------------------------------------------------------
  // Lookup-or-create

  /** At most one record per address before means at most one after. */
  lemma TrackUnique(clients: seq<Client>, ip: string, now: int, cutoff: int)
    requires UniqueIps(clients)
    ensures UniqueIps(Track(clients, ip, now, cutoff).clients)
  {
    ExpireUnique(clients, cutoff);
    var kept := Expire(clients, cutoff);
    var r := Track(clients, ip, now, cutoff);
    forall i, j | 0 <= i < j < |r.clients| ensures r.clients[i].ip != r.clients[j].ip {
      if j == |kept| {
        assert Lookup(kept, ip).None?;
      }
    }
  }

  /** Another address's records are exactly its surviving ones, and its count is untouched. */
  lemma TrackIsolation(clients: seq<Client>, ip: string, now: int, cutoff: int, other: string)
    requires other != ip
    ensures var r := Track(clients, ip, now, cutoff);
      (forall c: Client :: c.ip == other ==> (c in r.clients <==> c in clients && cutoff <= c.start)) &&
      CountOf(r.clients, other) == CountOf(Expire(clients, cutoff), other)
  {
    var kept := Expire(clients, cutoff);
    var r := Track(clients, ip, now, cutoff);
    forall c: Client | c.ip == other ensures c in r.clients <==> c in kept {
      if c in r.clients {
        var j :| 0 <= j < |r.clients| && r.clients[j] == c;
        assert j != r.at && j < |kept|;
        assert kept[j] == c;
      }
      if c in kept {
        var j :| 0 <= j < |kept| && kept[j] == c;
        assert r.clients[j] == c;
      }
    }
    match Lookup(kept, other)
    case None =>
      assert forall j :: 0 <= j < |r.clients| ==> r.clients[j].ip != other;
    case Some(m) =>
      LookupIs(r.clients, other, m);
  }

  // ---------------------------------------------------------------------------
  // One evaluation

  /** Every record the evaluated rule keeps is inside the window; records exactly at the
    * cutoff are kept; other clients lose records only through expiry and keep their counts. */
  lemma EvaluateExpiryAndIsolation(routes: seq<Route>, url: string, ip: string, now: int, k: nat)
    requires FirstMatch(routes, url) == Some(k) && routes[k].time > 0
    ensures var r := Evaluate(routes, url, ip, now);
      var cutoff := Cutoff(now, routes[k].time);
      (forall c :: c in r.routes[k].clients ==> cutoff <= c.start) &&
      (forall c: Client :: c.ip != ip ==> (c in r.routes[k].clients <==> c in routes[k].clients && cutoff <= c.start)) &&
      (forall other :: other != ip ==>
        CountOf(r.routes[k].clients, other) == CountOf(Expire(routes[k].clients, cutoff), other))
  {
    var cutoff := Cutoff(now, routes[k].time);
    var t := Track(routes[k].clients, ip, now, cutoff);
    var kept := Expire(routes[k].clients, cutoff);
    forall c | c in t.clients ensures cutoff <= c.start {
      var j :| 0 <= j < |t.clients| && t.clients[j] == c;
      if j < |kept| {
        assert t.clients[j].start == kept[j].start;
        assert kept[j] in kept;
      }
    }
    forall other | other != ip
      ensures (forall c: Client :: c.ip == other ==> (c in t.clients <==> c in routes[k].clients && cutoff <= c.start))
      ensures CountOf(t.clients, other) == CountOf(kept, other)
    {
      TrackIsolation(routes[k].clients, ip, now, cutoff, other);
    }
  }

  /** Evaluation keeps at most one record per address and never tracks a pass-through rule. */
  lemma EvaluateWellFormed(routes: seq<Route>, url: string, ip: string, now: int)
    requires WellFormed(routes)
    ensures WellFormed(Evaluate(routes, url, ip, now).routes)
  {
    match FirstMatch(routes, url)
    case None =>
    case Some(k) =>
      if routes[k].time != 0 {
        TrackUnique(routes[k].clients, ip, now, Cutoff(now, routes[k].time));
      }
  }

  /** Only the rules up to the first match are consulted: whatever rules follow it, the verdict
    * is the same and those rules come back untouched. */
  lemma LaterRulesIgnored(routes: seq<Route>, other: seq<Route>, url: string, ip: string, now: int, k: nat)
    requires FirstMatch(routes, url) == Some(k)
    requires k < |other| && other[..k + 1] == routes[..k + 1]
    ensures var a, b := Evaluate(routes, url, ip, now), Evaluate(other, url, ip, now);
      b.retryAfter == a.retryAfter && b.routes[..k + 1] == a.routes[..k + 1] &&
      b.routes[k + 1..] == other[k + 1..]
  {
    forall i | 0 <= i <= k ensures other[i] == routes[i] {
      assert other[i] == other[..k + 1][i];
    }
    assert FirstMatch(other, url) == Some(k);
  }

  /** A rule with `max <= 0` and a non-zero window denies every request it sees. */
  lemma ZeroMaxDeniesAll(routes: seq<Route>, url: string, ip: string, now: int, k: nat)
    requires FirstMatch(routes, url) == Some(k) && routes[k].time != 0 && routes[k].max <= 0
    ensures Evaluate(routes, url, ip, now).retryAfter == Some(routes[k].time)
  {
  }

  /** When every record of the requester is older than the window, the request opens a fresh
    * window with count 1, whatever the old count was, and is allowed exactly when `max >= 1`. */
  lemma WindowReset(routes: seq<Route>, url: string, ip: string, now: int, k: nat)
    requires FirstMatch(routes, url) == Some(k) && routes[k].time != 0
    requires forall c :: c in routes[k].clients && c.ip == ip ==> c.start < Cutoff(now, routes[k].time)
    ensures var r := Evaluate(routes, url, ip, now);
      var clients := r.routes[k].clients;
      Lookup(clients, ip).Some? && clients[Lookup(clients, ip).value] == Client(ip, now, 1) &&
      (r.retryAfter.None? <==> 1 <= routes[k].max)
  {
    var kept := Expire(routes[k].clients, Cutoff(now, routes[k].time));
    forall j | 0 <= j < |kept| ensures kept[j].ip != ip {
      assert kept[j] in kept;
    }
  }

  // ---------------------------------------------------------------------------
  // Several evaluations

  /** Rules with the same configurations are matched the same way. */
  lemma FirstMatchSameRules(a: seq<Route>, b: seq<Route>, url: string)
    requires |a| == |b| && forall i :: 0 <= i < |a| ==> SameRule(a[i], b[i])
    ensures FirstMatch(a, url) == FirstMatch(b, url)
  {
    match FirstMatch(a, url)
    case None =>
    case Some(k) =>
      assert b[k].re(url);
  }

  /** Replaying requests keeps the invariant. */
  lemma {:induction false} ReplayKeepsRules(routes: seq<Route>, url: string, ip: string, times: seq<int>)
    requires WellFormed(routes)
    ensures WellFormed(Replay(routes, url, ip, times).routes)
  {
    if times != [] {
      var prev := Replay(routes, url, ip, times[..|times| - 1]);
      ReplayKeepsRules(routes, url, ip, times[..|times| - 1]);
      EvaluateWellFormed(prev.routes, url, ip, times[|times| - 1]);
    }
  }

  /** The first request of a client without a live record opens its window at `now`. */
  lemma FirstRequest(routes: seq<Route>, url: string, ip: string, now: int, k: nat)
    requires FirstMatch(routes, url) == Some(k) && routes[k].time != 0
    requires Lookup(Expire(routes[k].clients, Cutoff(now, routes[k].time)), ip).None?
    ensures var r := Evaluate(routes, url, ip, now);
      var clients := r.routes[k].clients;
      Lookup(clients, ip).Some? && clients[Lookup(clients, ip).value] == Client(ip, now, 1) &&
      r.retryAfter == if 1 > routes[k].max then Some(routes[k].time) else None
  {
  }

  /** A request inside the requester's live window reuses its record and adds one to it. */
  lemma NextRequest(routes: seq<Route>, url: string, ip: string, now: int, k: nat, start: int, count: nat)
    requires FirstMatch(routes, url) == Some(k) && routes[k].time != 0
    requires Lookup(routes[k].clients, ip).Some?
    requires routes[k].clients[Lookup(routes[k].clients, ip).value] == Client(ip, start, count)
    requires Cutoff(now, routes[k].time) <= start
    ensures var r := Evaluate(routes, url, ip, now);
      var clients := r.routes[k].clients;
      Lookup(clients, ip).Some? && clients[Lookup(clients, ip).value] == Client(ip, start, count + 1) &&
      r.retryAfter == if count + 1 > routes[k].max then Some(routes[k].time) else None
  {
    var cutoff := Cutoff(now, routes[k].time);
    ExpireKeepsLookup(routes[k].clients, cutoff, ip, Lookup(routes[k].clients, ip).value);
  }

  /** A client without a live record sends `n` requests, each within the window opened by the
    * first: the record counts `n` from the first request's clock reading, and the last request
    * is denied with the rule's `time` exactly when `n > max`. */
  lemma {:induction false} BurstWithinWindow(routes: seq<Route>, url: string, ip: string, times: seq<int>, k: nat)
    requires |times| >= 1
    requires FirstMatch(routes, url) == Some(k) && routes[k].time > 0
    requires Lookup(Expire(routes[k].clients, Cutoff(times[0], routes[k].time)), ip).None?
    requires forall i :: 0 <= i < |times| ==> Cutoff(times[i], routes[k].time) <= times[0]
    ensures var r := Replay(routes, url, ip, times);
      var clients := r.routes[k].clients;
      Lookup(clients, ip).Some? && clients[Lookup(clients, ip).value] == Client(ip, times[0], |times|) &&
      r.retryAfter == if |times| > routes[k].max then Some(routes[k].time) else None
  {
    var n := |times|;
    var prefix := times[..n - 1];
    var prev := Replay(routes, url, ip, prefix);
    var r := Evaluate(prev.routes, url, ip, times[n - 1]);
    assert Replay(routes, url, ip, times) == r;
    if n == 1 {
      assert prefix == [];
      FirstRequest(routes, url, ip, times[0], k);
    } else {
      assert prefix[0] == times[0];
      assert forall i :: 0 <= i < |prefix| ==> prefix[i] == times[i];
      BurstWithinWindow(routes, url, ip, prefix, k);
      FirstMatchSameRules(prev.routes, routes, url);
      assert prev.routes[k].time == routes[k].time && prev.routes[k].max == routes[k].max;
      NextRequest(prev.routes, url, ip, times[n - 1], k, times[0], n - 1);
    }
  }

  /** At one clock reading and with `time > 0`, requests 1..max are allowed and every later
    * one is denied with `retryAfter == time`. */
  lemma SameInstantBurst(routes: seq<Route>, url: string, ip: string, now: int, n: nat, k: nat)
    requires n >= 1
    requires FirstMatch(routes, url) == Some(k) && routes[k].time > 0
    requires Lookup(Expire(routes[k].clients, Cutoff(now, routes[k].time)), ip).None?
    ensures Replay(routes, url, ip, seq(n, _ => now)).retryAfter ==
      if n > routes[k].max then Some(routes[k].time) else None
  {
    BurstWithinWindow(routes, url, ip, seq(n, _ => now), k);
  }

  // ---------------------------------------------------------------------------
  // Installing a configuration

  /** After a new configuration is installed, a client starts from nothing under the new rules:
    * whatever it did before, its requests within one window are denied only once their number
    * exceeds the new rule's `max`. */
  lemma FreshAfterInstall(configs: seq<RouteConfig>, compile: string -> string -> bool, url: string,
                          ip: string, times: seq<int>, k: nat)
    requires |times| >= 1
    requires FirstMatch(Install(configs, compile), url) == Some(k) && configs[k].time > 0
    requires forall i :: 0 <= i < |times| ==> Cutoff(times[i], configs[k].time) <= times[0]
    ensures Replay(Install(configs, compile), url, ip, times).retryAfter ==
      if |times| > configs[k].max then Some(configs[k].time) else None
  {
    BurstWithinWindow(Install(configs, compile), url, ip, times, k);
  }
}
