/**
 * The response object: status, content type, headers, body, and the session
 * and cookie maps with their "altered" flags; and `Compile`, which merges the
 * maps into the hosting environment and emits the page.
 */
module Responses {
  import opened Options
  import Status
  import opened ResponseState

  /** The content type a response gets when none is given. */
  const DefaultContentType: string := "text/html; charset=UTF-8"

  /**
   * What `Compile` reads and writes instead of PHP's ambient state: whether a
   * session is active, the session store, the cookie store, and the lines
   * emitted so far (status and header lines, then the body).
   */
  datatype Environment = Environment(
    sessionActive: bool,
    session: map<string, string>,
    cookies: map<string, string>,
    output: seq<string>)

  /**
   * array_merge on string keys: every entry of `incoming` overwrites the entry
   * of the same name in `store`, and entries only in `store` are kept.
   */
  function Merge(store: map<string, string>, incoming: map<string, string>): (merged: map<string, string>)
    ensures merged.Keys == store.Keys + incoming.Keys
    ensures forall k :: k in incoming ==> merged[k] == incoming[k]
    ensures forall k :: k in store && k !in incoming ==> merged[k] == store[k]
  {
    store + incoming
  }

  /** The prefix of every status line. */
  const StatusLinePrefix: string := "HTTP/1.1 "

  /**
   * The status line for `code`. An unknown code (possible, since the
   * constructor stores its status unchecked) concatenates PHP's `false`,
   * which is the empty string, so the line is the bare prefix.
   */
  function StatusLine(code: int): (line: string)
    ensures StatusLinePrefix <= line
    ensures Status.IsKnownCode(code) ==> Status.CodeThenPhrase(line[|StatusLinePrefix|..], code, Status.ReasonPhrase(code).value)
    ensures !Status.IsKnownCode(code) ==> line == StatusLinePrefix
  {
    match Status.HttpStatus(code)
    case Some(text) =>
      assert (StatusLinePrefix + text)[|StatusLinePrefix|..] == text;
      StatusLinePrefix + text
    case None => StatusLinePrefix
  }

  /** The Content-Type line. */
  function ContentTypeLine(contentType: string): string
  {
    "Content-Type: " + contentType
  }

  /** The line emitted for one header. */
  function HeaderLine(name: string, value: string): string
  {
    name + ": " + value
  }

  /** The header lines emitted when the headers are visited in the order `order`. */
  function HeaderLines(headers: map<string, string>, order: seq<string>): (lines: seq<string>)
    requires forall i :: 0 <= i < |order| ==> order[i] in headers
    ensures |lines| == |order|
    ensures forall i :: 0 <= i < |order| ==> lines[i] == HeaderLine(order[i], headers[order[i]])
    decreases |order|
  {
    if |order| == 0 then []
    else
      var last := order[|order| - 1];
      HeaderLines(headers, order[..|order| - 1]) + [HeaderLine(last, headers[last])]
  }

  /** Visiting one more header appends its line. */
  lemma HeaderLinesSnoc(headers: map<string, string>, order: seq<string>, name: string)
    requires forall i :: 0 <= i < |order| ==> order[i] in headers
    requires name in headers
    ensures HeaderLines(headers, order + [name]) == HeaderLines(headers, order) + [HeaderLine(name, headers[name])]
  {
    assert (order + [name])[..|order|] == order;
  }

  /**
   * Solver hint, not a property of the response: sequence concatenation is
   * associative. `Compile` calls it to regroup its output so that its proof
   * stays within the verifier's budget.
   */
  lemma RegroupConcatHint(before: seq<string>, middle: seq<string>, after: seq<string>)
    ensures before + middle + after == before + (middle + after)
  {
  }

  /** `order` lists every header name exactly once. */
  ghost predicate EnumeratesKeys(order: seq<string>, headers: map<string, string>)
  {
    && (forall i, j :: 0 <= i < j < |order| ==> order[i] != order[j])
    && (forall k :: k in headers <==> k in order)
  }

  /** A list without repetitions is as long as the set of its elements. */
  lemma {:induction false} DistinctLength(order: seq<string>, keys: set<string>)
    requires forall i, j :: 0 <= i < j < |order| ==> order[i] != order[j]
    requires forall k :: k in keys <==> k in order
    ensures |order| == |keys|
    decreases |order|
  {
    if |order| > 0 {
      var last := order[|order| - 1];
      var front := order[..|order| - 1];
      assert forall k :: k in keys - {last} <==> k in front by {
        forall k
          ensures k in keys - {last} <==> k in front
        {
          if k in order && k != last {
            var i :| 0 <= i < |order| && order[i] == k;
            assert i < |order| - 1 && front[i] == k;
          }
        }
      }
      DistinctLength(front, keys - {last});
    }
  }

  /** The whole page: status line, Content-Type line, one line per header, then the body. */
  function Page(statusLine: string, contentType: string, headers: map<string, string>, order: seq<string>, body: string): seq<string>
    requires forall i :: 0 <= i < |order| ==> order[i] in headers
  {
    [statusLine, ContentTypeLine(contentType)] + HeaderLines(headers, order) + [body]
  }

  /** A page emitted in an order that lists every header once has 3 + |headers| lines, each header's once. */
  lemma PageShape(statusLine: string, contentType: string, headers: map<string, string>, order: seq<string>, body: string)
    requires EnumeratesKeys(order, headers)
    ensures |Page(statusLine, contentType, headers, order, body)| == 3 + |headers|
    ensures forall k :: k in headers ==> HeaderLine(k, headers[k]) in Page(statusLine, contentType, headers, order, body)
  {
    DistinctLength(order, headers.Keys);
    var page := Page(statusLine, contentType, headers, order, body);
    forall k | k in headers
      ensures HeaderLine(k, headers[k]) in page
    {
      var i :| 0 <= i < |order| && order[i] == k;
      assert page[2 + i] == HeaderLine(k, headers[k]);
    }
  }

  /**
   * The `foreach` over the headers: append one `name: value` line per
   * header to `head`, visiting each name exactly once, and report the
   * visiting order.
   */
  method EmitHeaders(head: seq<string>, headers: map<string, string>) returns (out: seq<string>, order: seq<string>)
    ensures EnumeratesKeys(order, headers)
    ensures out == head + HeaderLines(headers, order)
  {
    out := head;
    var todo := headers.Keys;
    order := [];
    while todo != {}
      invariant todo <= headers.Keys
      invariant forall i :: 0 <= i < |order| ==> order[i] in headers && order[i] !in todo
      invariant forall i, j :: 0 <= i < j < |order| ==> order[i] != order[j]
      invariant forall k :: k in headers ==> k in todo || k in order
      invariant out == head + HeaderLines(headers, order)
      decreases |todo|
    {
      var name :| name in todo;
      HeaderLinesSnoc(headers, order, name);
      RegroupConcatHint(head, HeaderLines(headers, order), [HeaderLine(name, headers[name])]);
      out := out + [HeaderLine(name, headers[name])];
      order := order + [name];
      todo := todo - {name};
    }
  }

  class Response {
    var headers: map<string, string>
    var statusCode: int
    var body: string
    var contentType: string
    var sessionVars: map<string, string>
    var cookieVars: map<string, string>
    var sessionAltered: bool
    var cookiesAltered: bool

    /** The response's fields as one value. */
    ghost function Model(): State
      reads this
    {
      State(statusCode, contentType, headers, body, sessionVars, cookieVars, sessionAltered, cookiesAltered)
    }

    /**
     * The backwards-compatible constructor. When no (or an empty) session or
     * cookie array is given, the PHP code reads the ambient store into a local
     * that it then drops, so the maps start empty and `env` is never kept;
     * the status is stored unchecked.
     */
    constructor (env: Environment, body: string := "", statusCode: int := 200,
                 contentType: string := DefaultContentType,
                 cookies: Option<map<string, string>> := None,
                 session: Option<map<string, string>> := None)
      ensures Model() == Initial(body, statusCode, contentType, cookies, session)
      ensures this.statusCode == statusCode && this.body == body && this.contentType == contentType
      ensures headers == map[] && !sessionAltered && !cookiesAltered
      ensures sessionVars == if session.Some? then session.value else map[]
      ensures cookieVars == if cookies.Some? then cookies.value else map[]
    {
      if session.None? || session.value == map[] {
        sessionVars := map[];
      } else {
        sessionVars := session.value;
      }
      if cookies.None? || cookies.value == map[] {
        cookieVars := map[];
      } else {
        cookieVars := cookies.value;
      }
      this.statusCode := statusCode;
      this.contentType := contentType;
      headers := map[];
      this.body := body;
      sessionAltered, cookiesAltered := false, false;
    }

    /** append, with the printf formatting already applied to `section`. */
    method Append(section: string)
      modifies this
      ensures Model() == Step(old(Model()), Op.Append(section))
      ensures body == old(body) + section && old(body) <= body
    {
      body := body + section;
    }

    /** redirect: status 301 and a Location header; nothing else changes. */
    method Redirect(url: string)
      modifies this
      ensures Model() == Step(old(Model()), Op.Redirect(url))
      ensures statusCode == 301 && GetHeader("Location") == Some(url)
      ensures forall n :: n != "Location" ==> GetHeader(n) == old(GetHeader(n))
      ensures body == old(body) && sessionVars == old(sessionVars) && cookieVars == old(cookieVars)
    {
      SetStatus(301);
      SetHeader("Location", url);
    }

    /** setBody: the body becomes exactly `data`. */
    method SetBody(data: string)
      modifies this
      ensures Model() == Step(old(Model()), Op.SetBody(data))
      ensures body == data
    {
      body := data;
    }

    /** getBody: the body as it stands. */
    function GetBody(): (r: string)
      reads this
      ensures r == Model().body
    {
      body
    }

    /** setHeader: last write wins; every other header is kept. */
    method SetHeader(name: string, value: string)
      modifies this
      ensures Model() == Step(old(Model()), Op.SetHeader(name, value))
      ensures GetHeader(name) == Some(value)
      ensures forall n :: n != name ==> GetHeader(n) == old(GetHeader(n))
    {
      headers := headers[name := value];
    }

    /** getHeader: the value of a set header, and `None` (PHP's `false`) for an absent one. */
    function GetHeader(name: string): (r: Option<string>)
      reads this
      ensures r.None? <==> name !in headers
      ensures r.Some? ==> r.value == headers[name]
    {
      if name in headers then Some(headers[name]) else None
    }

    /** getHeaders: every header set so far, with its last value. */
    function GetHeaders(): (r: map<string, string>)
      reads this
      ensures r == Model().headers
    {
      headers
    }

    /** setSession: the session flag goes up; cookies are left alone. */
    method SetSession(name: string, value: string)
      modifies this
      ensures Model() == Step(old(Model()), Op.SetSession(name, value))
      ensures sessionAltered && forall d :: GetSession(name, d) == value
      ensures forall n, d :: n != name ==> GetSession(n, d) == old(GetSession(n, d))
      ensures cookieVars == old(cookieVars) && cookiesAltered == old(cookiesAltered)
    {
      sessionAltered := true;
      sessionVars := sessionVars[name := value];
    }

    /** getSession: the stored value, or the caller's default for an absent key. */
    function GetSession(name: string, default: string): (r: string)
      reads this
      ensures name in sessionVars ==> r == sessionVars[name]
      ensures name !in sessionVars ==> r == default
    {
      if name in sessionVars then sessionVars[name] else default
    }

    /** killSession: the key is gone; the session flag goes up; cookies are left alone. */
    method KillSession(name: string)
      modifies this
      ensures Model() == Step(old(Model()), Op.KillSession(name))
      ensures sessionAltered && forall d :: GetSession(name, d) == d
      ensures forall n, d :: n != name ==> GetSession(n, d) == old(GetSession(n, d))
      ensures cookieVars == old(cookieVars) && cookiesAltered == old(cookiesAltered)
    {
      sessionAltered := true;
      sessionVars := sessionVars - {name};
    }

    /** alteredSession: whether a session write or deletion happened. */
    function AlteredSession(): (r: bool)
      reads this
      ensures r == Model().sessionAltered
    {
      sessionAltered
    }

    /** alteredCookies: whether a cookie write or deletion happened. */
    function AlteredCookies(): (r: bool)
      reads this
      ensures r == Model().cookiesAltered
    {
      cookiesAltered
    }

    /** killCookie: the key is gone; the cookie flag goes up; the session is left alone. */
    method KillCookie(name: string)
      modifies this
      ensures Model() == Step(old(Model()), Op.KillCookie(name))
      ensures cookiesAltered && forall d :: GetCookie(name, d) == d
      ensures forall n, d :: n != name ==> GetCookie(n, d) == old(GetCookie(n, d))
      ensures sessionVars == old(sessionVars) && sessionAltered == old(sessionAltered)
    {
      cookiesAltered := true;
      cookieVars := cookieVars - {name};
    }

    /** setCookie: the cookie flag goes up; the session is left alone. */
    method SetCookie(name: string, value: string)
      modifies this
      ensures Model() == Step(old(Model()), Op.SetCookie(name, value))
      ensures cookiesAltered && forall d :: GetCookie(name, d) == value
      ensures forall n, d :: n != name ==> GetCookie(n, d) == old(GetCookie(n, d))
      ensures sessionVars == old(sessionVars) && sessionAltered == old(sessionAltered)
    {
      cookiesAltered := true;
      cookieVars := cookieVars[name := value];
    }

    /** getCookie: the stored value, or the caller's default for an absent key. */
    function GetCookie(name: string, default: string): (r: string)
      reads this
      ensures name in cookieVars ==> r == cookieVars[name]
      ensures name !in cookieVars ==> r == default
    {
      if name in cookieVars then cookieVars[name] else default
    }

    /** setStatus: a known code is taken, any other is silently ignored. */
    method SetStatus(code: int)
      modifies this
      ensures Model() == Step(old(Model()), Op.SetStatus(code))
      ensures statusCode == if Status.IsKnownCode(code) then code else old(statusCode)
    {
      if Status.HttpStatus(code).Some? {
        statusCode := code;
      }
    }

    /** getAllCookies: the response's cookie map. */
    function GetAllCookies(): (r: map<string, string>)
      reads this
      ensures r == Model().cookies
    {
      cookieVars
    }

    /** getAllSession: the response's session map. */
    function GetAllSession(): (r: map<string, string>)
      reads this
      ensures r == Model().session
    {
      sessionVars
    }

    /** getStatus: the status code as it stands. */
    function GetStatus(): (r: int)
      reads this
      ensures r == Model().status
    {
      statusCode
    }

    /**
     * compile: with an active session, merge the session map into the
     * environment's store; emit the status line, the Content-Type line and
     * one line per header (in `order`, each name once); merge the cookie map
     * into the cookie store; emit the body. The response itself is unchanged.
     */
    method Compile(env: Environment) returns (env': Environment, ghost order: seq<string>)
      ensures env'.sessionActive == env.sessionActive
      ensures env'.session == if env.sessionActive then Merge(env.session, sessionVars) else env.session
      ensures env'.cookies == Merge(env.cookies, cookieVars)
      ensures EnumeratesKeys(order, headers)
      ensures env'.output == env.output + Page(StatusLine(statusCode), contentType, headers, order, body)
      ensures |env'.output| == |env.output| + 3 + |headers|
    {
      var session := env.session;
      if env.sessionActive {
        session := Merge(env.session, sessionVars);
      }

      var statusLine := StatusLine(statusCode);
      var head := env.output + [statusLine, ContentTypeLine(contentType)];
      var out;
      out, order := EmitHeaders(head, headers);

      var cookies := Merge(env.cookies, cookieVars);
      out := out + [body];
      RegroupConcatHint(env.output, [statusLine, ContentTypeLine(contentType)], HeaderLines(headers, order));
      RegroupConcatHint(env.output, [statusLine, ContentTypeLine(contentType)] + HeaderLines(headers, order), [body]);
      env' := Environment(env.sessionActive, session, cookies, out);
      PageShape(statusLine, contentType, headers, order, body);
    }
  }

}
