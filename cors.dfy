/**
 * The CORS middleware: it picks the Access-Control-Allow-Origin value
 * from the request's Origin header and a fixed allow list, sets the four
 * CORS response headers and answers a preflight OPTIONS request with 204.
 */
module Cors {
  import opened Wrappers
  import opened Text
  import opened Gin

  const AllowedOrigins: seq<string> := [
    "http://localhost:3000",
    "http://localhost:5173",
    "http://localhost:8080",
    "https://event-ticketing.example.com",
    "https://staging.event-ticketing.example.com"
  ]

  const AllowedMethods: string := "GET,POST,PUT,DELETE,OPTIONS,PATCH"
  const AllowedHeaders: string :=
    "Content-Type,Content-Length,Accept-Encoding,X-CSRF-Token,Authorization,accept,origin,Cache-Control,X-Requested-With"

  /** The origin matches some entry of `allowed` once the entry's surrounding white space is trimmed. */
  predicate Listed(allowed: seq<string>, origin: string) {
    exists k :: 0 <= k < |allowed| && origin == TrimSpace(allowed[k])
  }

  /** The Allow-Origin value: "*" without an Origin header, the origin itself when listed, else the first entry. */
  function SelectOrigin(allowed: seq<string>, origin: string): string {
    if origin == "" then "*"
    else if Listed(allowed, origin) then origin
    else if |allowed| > 0 then allowed[0]
    else "*"
  }

  function AllowOrigin(origin: string): string {
    SelectOrigin(AllowedOrigins, origin)
  }

  /** The origin loop: it stops at the first entry that matches. */
  method ChooseOrigin(allowed: seq<string>, origin: string) returns (allowOrigin: string)
    ensures allowOrigin == SelectOrigin(allowed, origin)
  {
    allowOrigin := "*";
    if origin != "" {
      var allowed' := false;
      var i := 0;
      while i < |allowed| && !allowed'
        invariant 0 <= i <= |allowed|
        invariant allowed' ==> Listed(allowed, origin) && allowOrigin == origin
        invariant !allowed' ==> allowOrigin == "*" && forall k :: 0 <= k < i ==> origin != TrimSpace(allowed[k])
      {
        var entry := TrimSpace(allowed[i]);
        if origin == entry {
          allowed' := true;
          allowOrigin := origin;
        }
        i := i + 1;
      }
      if !allowed' && |allowed| > 0 {
        assert !Listed(allowed, origin);
        allowOrigin := allowed[0];
      }
    }
  }

  /** The response headers the middleware sets for a given Allow-Origin value. */
  function CorsHeaders(h: map<string, string>, allowOrigin: string): map<string, string> {
    h["Access-Control-Allow-Origin" := allowOrigin]
     ["Access-Control-Allow-Credentials" := "true"]
     ["Access-Control-Allow-Headers" := AllowedHeaders]
     ["Access-Control-Allow-Methods" := AllowedMethods]
  }

  /** The middleware's effect on the context. */
  function CorsSpec(st: State, r: Request): State {
    var s := st.(headers := CorsHeaders(st.headers, AllowOrigin(Header(r, "Origin"))));
    if r.verb == "OPTIONS" then s.(response := Some(Bare(204)), aborted := true)
    else Continue(s)
  }

  /** CORS on a context: the allow-list loop stops at the first match. */
  method CORS(c: Context)
    modifies c
    ensures c.St() == CorsSpec(old(c.St()), c.request)
  {
    var origin := c.GetHeader("Origin");
    var allowOrigin := ChooseOrigin(AllowedOrigins, origin);
    c.SetHeader("Access-Control-Allow-Origin", allowOrigin);
    c.SetHeader("Access-Control-Allow-Credentials", "true");
    c.SetHeader("Access-Control-Allow-Headers", AllowedHeaders);
    c.SetHeader("Access-Control-Allow-Methods", AllowedMethods);
    if c.request.verb == "OPTIONS" {
      c.AbortWithStatus(204);
      return;
    }
    c.Next();
  }

  /** With entries that carry no surrounding white space, being listed is being an entry. */
  lemma ListedMeansEntry(allowed: seq<string>, origin: string)
    requires forall k :: 0 <= k < |allowed| ==> TrimSpace(allowed[k]) == allowed[k]
    ensures Listed(allowed, origin) <==> origin in allowed
  {
    if origin in allowed {
      var k :| 0 <= k < |allowed| && allowed[k] == origin;
      assert origin == TrimSpace(allowed[k]);
    }
  }

  /** No list entry carries surrounding white space, so trimming leaves each as written. */
  lemma EntriesAreTrimmed()
    ensures forall k :: 0 <= k < |AllowedOrigins| ==> TrimSpace(AllowedOrigins[k]) == AllowedOrigins[k]
  {
    forall k | 0 <= k < |AllowedOrigins|
      ensures TrimSpace(AllowedOrigins[k]) == AllowedOrigins[k]
    {
      var e := AllowedOrigins[k];
      assert e[0] == 'h';
      assert e[|e| - 1] == '0' || e[|e| - 1] == '3' || e[|e| - 1] == 'm';
      TrimSpaceUnchanged(e);
    }
  }

  /**
   * The three cases of the origin choice: no header gives "*", a listed
   * origin is echoed back, and any other origin gets "http://localhost:3000".
   */
  lemma AllowOriginCases(origin: string)
    ensures origin == "" ==> AllowOrigin(origin) == "*"
    ensures origin in AllowedOrigins ==> AllowOrigin(origin) == origin
    ensures origin != "" && origin !in AllowedOrigins ==> AllowOrigin(origin) == "http://localhost:3000"
  {
    if origin != "" {
      EntriesAreTrimmed();
      ListedMeansEntry(AllowedOrigins, origin);
      if origin !in AllowedOrigins {
        assert AllowOrigin(origin) == AllowedOrigins[0];
      }
    }
  }

  /** The Allow-Origin value is never an unlisted origin: it is "*" or a list entry. */
  lemma AllowOriginIsListedOrStar(origin: string)
    ensures AllowOrigin(origin) == "*" || AllowOrigin(origin) in AllowedOrigins
  {
    AllowOriginCases(origin);
  }

  /**
   * Every response carries the four headers with credentials allowed;
   * OPTIONS stops with 204 and any other method goes on. The context's values
   * and any earlier response are left alone otherwise.
   */
  lemma CorsOutcome(st: State, r: Request)
    ensures var s := CorsSpec(st, r);
      && s.headers["Access-Control-Allow-Origin"] == AllowOrigin(Header(r, "Origin"))
      && s.headers["Access-Control-Allow-Credentials"] == "true"
      && s.headers["Access-Control-Allow-Headers"] == AllowedHeaders
      && s.headers["Access-Control-Allow-Methods"] == AllowedMethods
      && s.values == st.values
      && (r.verb == "OPTIONS" ==> StoppedWith(s, 204) && s.next == st.next)
      && (r.verb != "OPTIONS" ==> s.next && s.aborted == st.aborted && s.response == st.response)
  {
  }
}
