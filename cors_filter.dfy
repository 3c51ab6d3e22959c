/**
 * `SimpleCorsFilter.doFilter`: the CORS response headers of section 3.2 of
 * the WHATWG Fetch Standard, set on every response, and the short circuit
 * that answers a preflight (`OPTIONS`) request without running the rest of
 * the chain.
 */
module CorsFilter {
  import opened Wrappers

  const ALLOW_ORIGIN := "Access-Control-Allow-Origin"
  const ALLOW_METHODS := "Access-Control-Allow-Methods"
  const ALLOW_CREDENTIALS := "Access-Control-Allow-Credentials"
  const ALLOW_HEADERS := "Access-Control-Allow-Headers"
  const MAX_AGE := "Access-Control-Max-Age"

  const METHODS := "POST, GET, PUT, OPTIONS, DELETE, PATCH"
  const HEADERS := "Origin, Content-Type, Accept, Authorization, X-Requested-With, X-CSRF-Token"

  const SC_OK := 200

  /** The parts of the request the filter reads: its method (`verb`) and its `Origin` header, if any. */
  datatype HttpServletRequest = HttpServletRequest(verb: string, origin: Option<string>)

  /** The response under construction: its header map and its status. */
  class HttpServletResponse {
    var headers: map<string, string>
    var status: int

    constructor (status: int)
      ensures headers == map[] && this.status == status
    {
      headers := map[];
      this.status := status;
    }

    /** `setHeader(name, value)`: replaces any earlier value of `name`. */
    method SetHeader(name: string, value: string)
      modifies this`headers
      ensures headers == old(headers)[name := value]
    {
      headers := headers[name := value];
    }
  }

  /** The rest of the filter chain, observed only by how often it is invoked. */
  class FilterChain {
    var invocations: nat

    constructor ()
      ensures invocations == 0
    {
      invocations := 0;
    }

    method DoFilter()
      modifies this
      ensures invocations == old(invocations) + 1
    {
      invocations := invocations + 1;
    }
  }

  /**
   * `Character.toUpperCase` on the characters whose upper case is an ASCII
   * letter: the ASCII letters, dotless i and long s. Every other character
   * is its own image here.
   */
  function UpperChar(c: char): char {
    if 'a' <= c <= 'z' then (c as int - 32) as char
    else if c == '\U{0131}' then 'I'
    else if c == '\U{017F}' then 'S'
    else c
  }

  /**
   * `Character.toLowerCase` on the characters whose lower case is an ASCII
   * letter: the ASCII letters, capital I with dot above and the Kelvin sign.
   */
  function LowerChar(c: char): char {
    if 'A' <= c <= 'Z' then (c as int + 32) as char
    else if c == '\U{0130}' then 'i'
    else if c == '\U{212A}' then 'k'
    else c
  }

  /** `String.regionMatches(true, ...)` on one pair of characters. */
  predicate CharsMatchIgnoreCase(a: char, b: char) {
    a == b || UpperChar(a) == UpperChar(b) || LowerChar(UpperChar(a)) == LowerChar(UpperChar(b))
  }

  /** `String.equalsIgnoreCase`, restricted to comparisons with an ASCII word. */
  predicate EqualsIgnoreCase(a: string, b: string) {
    |a| == |b| && forall i :: 0 <= i < |a| ==> CharsMatchIgnoreCase(a[i], b[i])
  }

  /** The request is a preflight: its method is "OPTIONS" up to case. */
  predicate IsPreflight(request: HttpServletRequest) {
    EqualsIgnoreCase("OPTIONS", request.verb)
  }

  /** The five headers every response receives; the origin is echoed when sent and `*` otherwise. */
  function CorsHeaders(origin: Option<string>): (h: map<string, string>)
    ensures h.Keys == {ALLOW_ORIGIN, ALLOW_METHODS, ALLOW_CREDENTIALS, ALLOW_HEADERS, MAX_AGE}
    ensures h[ALLOW_ORIGIN] == origin.GetOr("*")
    ensures h[ALLOW_CREDENTIALS] == "true" && h[MAX_AGE] == "3600"
    ensures h[ALLOW_METHODS] == METHODS && h[ALLOW_HEADERS] == HEADERS
  {
    map[ALLOW_ORIGIN := origin.GetOr("*"), ALLOW_METHODS := METHODS, ALLOW_CREDENTIALS := "true",
        ALLOW_HEADERS := HEADERS, MAX_AGE := "3600"]
  }

  /**
   * `doFilter(request, response, chain)`: the headers are set first, for every
   * method; a preflight then gets status 200 and the chain is skipped, and any
   * other request passes down the chain exactly once with its status untouched.
   */
  method DoFilter(request: HttpServletRequest, response: HttpServletResponse, chain: FilterChain)
    modifies response, chain
    ensures response.headers == old(response.headers) + CorsHeaders(request.origin)
    ensures IsPreflight(request) ==> response.status == SC_OK && chain.invocations == old(chain.invocations)
    ensures !IsPreflight(request) ==> response.status == old(response.status) && chain.invocations == old(chain.invocations) + 1
  {
    match request.origin {
      case Some(originHeader) => response.SetHeader(ALLOW_ORIGIN, originHeader);
      case None => response.SetHeader(ALLOW_ORIGIN, "*");
    }
    response.SetHeader(ALLOW_METHODS, METHODS);
    response.SetHeader(ALLOW_CREDENTIALS, "true");
    response.SetHeader(ALLOW_HEADERS, HEADERS);
    response.SetHeader(MAX_AGE, "3600");
    HeadersInOrder(old(response.headers), request.origin);
    if IsPreflight(request) {
      response.status := SC_OK;
    } else {
      chain.DoFilter();
    }
  }

  /** The five header names are distinct, so setting them one after another gives the map above. */
  lemma HeadersInOrder(h: map<string, string>, origin: Option<string>)
    ensures h[ALLOW_ORIGIN := origin.GetOr("*")][ALLOW_METHODS := METHODS][ALLOW_CREDENTIALS := "true"]
             [ALLOW_HEADERS := HEADERS][MAX_AGE := "3600"] == h + CorsHeaders(origin)
  {
    assert ALLOW_ORIGIN[21] == 'O' && ALLOW_METHODS[21] == 'M' && ALLOW_CREDENTIALS[21] == 'C' && ALLOW_HEADERS[21] == 'H';
    assert MAX_AGE[15] == 'M' && ALLOW_ORIGIN[15] == 'A';
  }

  /** Which method texts count as a preflight: any case of the ASCII letters, and the Unicode look-alikes Java folds onto them. */
  lemma {:induction false} PreflightSpellings()
    ensures IsPreflight(HttpServletRequest("OPTIONS", None))
    ensures IsPreflight(HttpServletRequest("options", None))
    ensures IsPreflight(HttpServletRequest("OPT\U{0131}ON\U{017F}", None))
    ensures IsPreflight(HttpServletRequest("OPT\U{0130}ONS", None))
  {
    assert CharsMatchIgnoreCase('I', '\U{0131}') && CharsMatchIgnoreCase('S', '\U{017F}');
    assert CharsMatchIgnoreCase('I', '\U{0130}');
    assert forall i :: 0 <= i < 7 ==> CharsMatchIgnoreCase("OPTIONS"[i], "options"[i]);
  }

  /** A shorter word or another method is not a preflight. */
  lemma NotPreflight()
    ensures !IsPreflight(HttpServletRequest("OPTION", None))
    ensures !IsPreflight(HttpServletRequest("GET", None))
  {
    assert !CharsMatchIgnoreCase('O', 'G');
  }

  /** A preflight's method is seven characters, each one of the forms its letter admits. */
  lemma {:induction false} PreflightLetters(request: HttpServletRequest, i: nat)
    requires IsPreflight(request) && i < 7
    ensures |request.verb| == 7
    ensures var c := request.verb[i];
      c == "OPTIONS"[i] || c == "options"[i]
      || ("OPTIONS"[i] == 'I' && (c == '\U{0131}' || c == '\U{0130}'))
      || ("OPTIONS"[i] == 'S' && c == '\U{017F}')
  {
    assert CharsMatchIgnoreCase("OPTIONS"[i], request.verb[i]);
  }
}
