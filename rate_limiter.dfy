/**
 * Per-client rate limiting: the client address a request is charged to,
 * the choice between the authentication and the standard limiter, and the
 * per-IP limiter table with its last-seen times and expiry sweep. The
 * token buckets themselves are foreign; whether the chosen one admits the
 * request is a parameter, and each limiter is known only by its identity.
 */
module RateLimiting {
  import opened Wrappers
  import opened Text
  import opened Gin

  /** A token bucket created by the table, identified by its creation number (a freshly allocated limiter in Go). */
  datatype Limiter = Limiter(serial: nat)

  /** The table's state: limiter per IP, last-seen time per IP (in seconds), limiters created so far. */
  datatype Table = Table(ips: map<string, Limiter>, lastSeen: map<string, int>, created: nat)

  /** Both maps have the same keys, and every limiter in the table was created before the next one. */
  predicate TableInv(t: Table) {
    t.ips.Keys == t.lastSeen.Keys && forall ip :: ip in t.ips ==> t.ips[ip].serial < t.created
  }

  /** AddIP: a new limiter for the IP, which is seen now. */
  function AddIPSpec(t: Table, ip: string, now: int): (Table, Limiter) {
    var l := Limiter(t.created);
    (Table(t.ips[ip := l], t.lastSeen[ip := now], t.created + 1), l)
  }

  /** GetLimiter: the IP's limiter with its last-seen time refreshed, or AddIP for an unknown IP. */
  function GetLimiterSpec(t: Table, ip: string, now: int): (Table, Limiter) {
    if ip in t.ips then (t.(lastSeen := t.lastSeen[ip := now]), t.ips[ip])
    else AddIPSpec(t, ip, now)
  }

  /** Not seen for longer than the expiry. */
  predicate Expired(t: Table, ip: string, now: int, expiry: int) {
    ip in t.lastSeen && now - t.lastSeen[ip] > expiry
  }

  /** cleanupExpired's sweep at time `now`: expired IPs leave both maps. */
  function CleanupSpec(t: Table, now: int, expiry: int): Table {
    Table(map ip | ip in t.ips && !Expired(t, ip, now, expiry) :: t.ips[ip],
          map ip | ip in t.lastSeen && !Expired(t, ip, now, expiry) :: t.lastSeen[ip],
          t.created)
  }

  class IPRateLimiter {
    var ips: map<string, Limiter>
    var lastSeen: map<string, int>
    var created: nat
    const expiry: int

    function St(): Table
      reads this
    {
      Table(ips, lastSeen, created)
    }

    /** NewIPRateLimiter: empty maps; the rate and burst belong to the foreign limiters. */
    constructor (expiry: int)
      ensures St() == Table(map[], map[], 0) && this.expiry == expiry && TableInv(St())
    {
      ips := map[];
      lastSeen := map[];
      created := 0;
      this.expiry := expiry;
    }

    method AddIP(ip: string, now: int) returns (l: Limiter)
      modifies this
      ensures (St(), l) == AddIPSpec(old(St()), ip, now)
    {
      l := Limiter(created);
      ips := ips[ip := l];
      lastSeen := lastSeen[ip := now];
      created := created + 1;
    }

    method GetLimiter(ip: string, now: int) returns (l: Limiter)
      modifies this
      ensures (St(), l) == GetLimiterSpec(old(St()), ip, now)
    {
      if ip !in ips {
        l := AddIP(ip, now);
        return;
      }
      l := ips[ip];
      lastSeen := lastSeen[ip := now];
    }

    /** One sweep of the cleanup ticker: visit every last-seen entry and delete the expired ones from both maps. */
    method CleanupExpired(now: int)
      modifies this
      ensures St() == CleanupSpec(old(St()), now, expiry)
    {
      ghost var t0 := St();
      var pending := lastSeen.Keys;
      while pending != {}
        invariant pending <= t0.lastSeen.Keys
        invariant created == t0.created
        invariant ips == map ip | ip in t0.ips && !(ip !in pending && Expired(t0, ip, now, expiry)) :: t0.ips[ip]
        invariant lastSeen == map ip | ip in t0.lastSeen && !(ip !in pending && Expired(t0, ip, now, expiry)) :: t0.lastSeen[ip]
        decreases pending
      {
        var ip :| ip in pending;
        if now - lastSeen[ip] > expiry {
          ips := ips - {ip};
          lastSeen := lastSeen - {ip};
        }
        pending := pending - {ip};
      }
    }
  }

  /** GetLimiter on a known IP returns the limiter it holds, keeps every limiter and refreshes only that IP's time. */
  lemma GetLimiterKnown(t: Table, ip: string, now: int)
    requires ip in t.ips
    ensures var (t', l) := GetLimiterSpec(t, ip, now);
      l == t.ips[ip] && t'.ips == t.ips && t'.lastSeen == t.lastSeen[ip := now] && t'.created == t.created
  {
  }

  /**
   * GetLimiter on an unknown IP enters a limiter different from every
   * limiter already in the table into both maps.
   */
  lemma GetLimiterUnknown(t: Table, ip: string, now: int)
    requires TableInv(t) && ip !in t.ips
    ensures var (t', l) := GetLimiterSpec(t, ip, now);
      && t'.ips == t.ips[ip := l] && t'.lastSeen == t.lastSeen[ip := now]
      && forall other :: other in t.ips ==> t.ips[other] != l
  {
  }

  /** AddIP on an IP that already has a limiter replaces it with a different one. */
  lemma AddIPReplaces(t: Table, ip: string, now: int)
    requires TableInv(t) && ip in t.ips
    ensures AddIPSpec(t, ip, now).1 != t.ips[ip]
    ensures AddIPSpec(t, ip, now).0.ips[ip] == AddIPSpec(t, ip, now).1
  {
  }

  /** Asking twice for the same IP hands out the same limiter. */
  lemma GetLimiterStable(t: Table, ip: string, now1: int, now2: int)
    ensures var (t1, l1) := GetLimiterSpec(t, ip, now1);
      GetLimiterSpec(t1, ip, now2).1 == l1
  {
  }

  /** Every table operation keeps the two maps' key sets equal and the limiters' numbers below the count. */
  lemma TableOperationsKeepInv(t: Table, ip: string, now: int, expiry: int)
    requires TableInv(t)
    ensures TableInv(AddIPSpec(t, ip, now).0)
    ensures TableInv(GetLimiterSpec(t, ip, now).0)
    ensures TableInv(CleanupSpec(t, now, expiry))
  {
    var c := CleanupSpec(t, now, expiry);
    assert c.ips.Keys == c.lastSeen.Keys by {
      forall ip' ensures ip' in c.ips <==> ip' in c.lastSeen {
        assert ip' in t.ips <==> ip' in t.lastSeen;
      }
    }
  }

  /**
   * The sweep removes exactly the IPs last seen more than `expiry` ago: one
   * seen exactly `expiry` ago stays, and what stays keeps its limiter and time.
   */
  lemma CleanupExact(t: Table, now: int, expiry: int, ip: string)
    requires TableInv(t)
    ensures var c := CleanupSpec(t, now, expiry);
      && (ip in c.lastSeen <==> ip in t.lastSeen && now - t.lastSeen[ip] <= expiry)
      && (ip in c.ips <==> ip in c.lastSeen)
      && (ip in c.ips ==> c.ips[ip] == t.ips[ip] && c.lastSeen[ip] == t.lastSeen[ip])
  {
    assert ip in t.ips <==> ip in t.lastSeen;
  }

  /** net.SplitHostPort's host, or None when it reports an error. */
  function SplitHost(a: string): Option<string> {
    match LastIndexOf(a, ':')
    case None => None
    case Some(i) =>
      if a[0] == '[' then
        match IndexOf(a, ']')
        case None => None
        case Some(e) =>
          if e + 1 != i || '[' in a[1..] || ']' in a[e + 1..] then None else Some(a[1..e])
      else if ':' in a[..i] || '[' in a || ']' in a then None
      else Some(a[..i])
  }

  /** "host:port" with no colon or bracket in either part splits back into the host. */
  lemma SplitHostPlain(host: string, port: string)
    requires ':' !in host && '[' !in host && ']' !in host && |host| > 0 && host[0] != '['
    requires ':' !in port && '[' !in port && ']' !in port
    ensures SplitHost(host + ":" + port) == Some(host)
  {
    var a := host + ":" + port;
    assert a[|host|] == ':';
    assert a[|host| + 1..] == port;
    assert LastIndexOf(a, ':') == Some(|host|);
    assert a[..|host|] == host;
    assert '[' !in a && ']' !in a by {
      assert forall k :: 0 <= k < |a| ==> a[k] == (if k < |host| then host[k] else if k == |host| then ':' else port[k - |host| - 1]);
    }
  }

  /** "[host]:port", the bracketed form of IPv6 addresses, splits back into the host. */
  lemma SplitHostBracketed(host: string, port: string)
    requires '[' !in host && ']' !in host
    requires ':' !in port && '[' !in port && ']' !in port
    ensures SplitHost("[" + host + "]:" + port) == Some(host)
  {
    BracketedColon(host, port);
    BracketedClose(host, port);
    BracketedRest(host, port);
  }

  /** In "[host]:port" the last colon is the one after the bracket. */
  lemma BracketedColon(host: string, port: string)
    requires ':' !in port
    ensures LastIndexOf("[" + host + "]:" + port, ':') == Some(|host| + 2)
  {
    var a := "[" + host + "]:" + port;
    var e := |host| + 1;
    assert a[e + 2..] == port;
    assert a[e + 1] == ':';
    LastIndexOfLast(a, ':', e + 1);
  }

  /** In "[host]:port" the first ']' closes the host. */
  lemma BracketedClose(host: string, port: string)
    requires ']' !in host
    ensures IndexOf("[" + host + "]:" + port, ']') == Some(|host| + 1)
  {
    var a := "[" + host + "]:" + port;
    var e := |host| + 1;
    assert a[..e] == "[" + host;
    assert a[e] == ']';
    NotInConcat("[", host, ']');
    IndexOfFirst(a, ']', e);
  }

  /** In "[host]:port" no other bracket follows, and the host sits between the brackets. */
  lemma BracketedRest(host: string, port: string)
    requires '[' !in host && ':' !in port && '[' !in port && ']' !in port
    ensures var a := "[" + host + "]:" + port;
      && a[0] == '[' && '[' !in a[1..] && ']' !in a[|host| + 2..] && a[1..|host| + 1] == host
  {
    var a := "[" + host + "]:" + port;
    var e := |host| + 1;
    assert a[1..] == host + ("]:" + port);
    NotInConcat("]:", port, '[');
    NotInConcat(host, "]:" + port, '[');
    assert a[e + 1..] == ":" + port;
    NotInConcat(":", port, ']');
    assert a[1..e] == host;
  }

  /** An address without a port is an error, so the whole address is used. */
  lemma SplitHostNeedsPort(a: string)
    requires ':' !in a
    ensures SplitHost(a).None?
  {
  }

  /** Where the client IP comes from: X-Forwarded-For's first entry, trimmed; else X-Real-IP; else RemoteAddr's host. */
  function ClientIP(remoteAddr: string, forwarded: string, realIP: string): string {
    if forwarded != "" then TrimSpace(Split(forwarded, ',')[0])
    else if realIP != "" then realIP
    else SplitHost(remoteAddr).GetOr(remoteAddr)
  }

  function RequestIP(r: Request): string {
    ClientIP(r.remoteAddr, Header(r, "X-Forwarded-For"), Header(r, "X-Real-IP"))
  }

  /**
   * The order of the sources: a non-empty X-Forwarded-For decides alone, and
   * its first comma-separated entry is taken; X-Real-IP is consulted only
   * without it; RemoteAddr's host only without either.
   */
  lemma ClientIPOrder(remoteAddr: string, first: string, rest: string, realIP: string)
    requires ',' !in first
    ensures ClientIP(remoteAddr, first + "," + rest, realIP) == TrimSpace(first)
    ensures first != "" ==> ClientIP(remoteAddr, first, realIP) == TrimSpace(first)
    ensures realIP != "" ==> ClientIP(remoteAddr, "", realIP) == realIP
    ensures ClientIP(remoteAddr, "", "") == (if SplitHost(remoteAddr).Some? then SplitHost(remoteAddr).value else remoteAddr)
  {
    assert first + "," + rest == first + [','] + rest;
    SplitAtFirst(first, ',', rest);
    SplitWithoutSeparator(first, ',');
  }

  const AuthPrefix: string := "/api/v1/auth"

  /** The stricter authentication limiter serves exactly the paths that start with "/api/v1/auth". */
  predicate UsesAuthLimiter(path: string) {
    HasPrefix(path, AuthPrefix)
  }

  /** The match is on characters, not path segments: "/api/v1/authors" also goes to the authentication limiter. */
  lemma AuthPrefixIsTextual()
    ensures UsesAuthLimiter("/api/v1/auth/login")
    ensures UsesAuthLimiter("/api/v1/authors")
    ensures !UsesAuthLimiter("/api/v1/events")
  {
    assert "/api/v1/auth/login"[..|AuthPrefix|] == AuthPrefix;
    assert "/api/v1/authors"[..|AuthPrefix|] == AuthPrefix;
    assert "/api/v1/events"[8] != AuthPrefix[8];
  }

  const RateMessage: string := "Rate limit exceeded. Please try again later."
  const StrictRateMessage: string := "Rate limit exceeded for sensitive operation. Please try again later."

  /** Admitted requests go on; refused ones stop with 429 and the "Too many requests" body. */
  function LimitSpec(st: State, allow: bool, message: string): State {
    if allow then Continue(st)
    else st.(response := Some(JsonBody(429, map["error" := "Too many requests", "message" := message])), aborted := true)
  }

  /** The limiters' expiry, in seconds: one hour for the standard and authentication tables, two for the strict one. */
  const StandardExpiry: int := 3600
  const AuthExpiry: int := 3600
  const StrictExpiry: int := 7200

  /** RateLimiterMiddleware: charge the client IP to the limiter the path selects; `allow` is that limiter's verdict. */
  method RateLimiterMiddleware(c: Context, standard: IPRateLimiter, auth: IPRateLimiter, now: int, allow: bool)
    requires standard != auth
    modifies c, standard, auth
    ensures var ip := RequestIP(c.request);
      && (UsesAuthLimiter(c.request.path) ==>
            auth.St() == GetLimiterSpec(old(auth.St()), ip, now).0 && standard.St() == old(standard.St()))
      && (!UsesAuthLimiter(c.request.path) ==>
            standard.St() == GetLimiterSpec(old(standard.St()), ip, now).0 && auth.St() == old(auth.St()))
      && c.St() == LimitSpec(old(c.St()), allow, RateMessage)
  {
    var host := SplitHost(c.request.remoteAddr);
    var ip := if host.Some? then host.value else c.request.remoteAddr;
    var forwarded := c.GetHeader("X-Forwarded-For");
    if forwarded != "" {
      var ips := Split(forwarded, ',');
      ip := TrimSpace(ips[0]);
    } else {
      var realIP := c.GetHeader("X-Real-IP");
      if realIP != "" {
        ip := realIP;
      }
    }
    var limiter;
    if HasPrefix(c.request.path, AuthPrefix) {
      limiter := auth.GetLimiter(ip, now);
    } else {
      limiter := standard.GetLimiter(ip, now);
    }
    if !allow {
      c.Json(429, map["error" := "Too many requests", "message" := RateMessage]);
      c.Abort();
      return;
    }
    c.Next();
  }

  /** StrictRateLimiter's handler: the same client IP, one strict table, its own message. */
  method StrictRateLimiter(c: Context, strict: IPRateLimiter, now: int, allow: bool)
    modifies c, strict
    ensures strict.St() == GetLimiterSpec(old(strict.St()), RequestIP(c.request), now).0
    ensures c.St() == LimitSpec(old(c.St()), allow, StrictRateMessage)
  {
    var host := SplitHost(c.request.remoteAddr);
    var ip := if host.Some? then host.value else c.request.remoteAddr;
    var forwarded := c.GetHeader("X-Forwarded-For");
    if forwarded != "" {
      var ips := Split(forwarded, ',');
      ip := TrimSpace(ips[0]);
    } else {
      var realIP := c.GetHeader("X-Real-IP");
      if realIP != "" {
        ip := realIP;
      }
    }
    var limiter := strict.GetLimiter(ip, now);
    if !allow {
      c.Json(429, map["error" := "Too many requests", "message" := StrictRateMessage]);
      c.Abort();
      return;
    }
    c.Next();
  }

  /** A refused request stops with 429 and leaves the context's values alone; an admitted one goes on unchanged. */
  lemma LimitOutcome(st: State, allow: bool, message: string)
    ensures !allow ==> StoppedWith(LimitSpec(st, allow, message), 429) && LimitSpec(st, allow, message).values == st.values
    ensures allow ==> LimitSpec(st, allow, message) == Continue(st)
  {
  }
}
