/**
 * The state a response accumulates, as a value, and the effect of each of its
 * mutating calls on that value. The `Response` class is proved against these
 * definitions; the lemmas here say what any sequence of calls does.
 */
module ResponseState {
  import opened Options
  import Status

  /** All fields of a response: what it will emit, and what it will merge into the environment. */
  datatype State = State(
    status: int,
    contentType: string,
    headers: map<string, string>,
    body: string,
    session: map<string, string>,
    cookies: map<string, string>,
    sessionAltered: bool,
    cookiesAltered: bool)

  /** The mutating calls of a response, one per public setter. */
  datatype Op =
    | Append(section: string)
    | SetBody(data: string)
    | SetHeader(name: string, value: string)
    | Redirect(url: string)
    | SetStatus(code: int)
    | SetSession(name: string, value: string)
    | KillSession(name: string)
    | SetCookie(name: string, value: string)
    | KillCookie(name: string)

  /** The calls that write the session map. */
  predicate TouchesSession(op: Op)
  {
    op.SetSession? || op.KillSession?
  }

  /** The calls that write the cookie map. */
  predicate TouchesCookies(op: Op)
  {
    op.SetCookie? || op.KillCookie?
  }

  /**
   * The map the constructor keeps from an optional array argument: the array
   * when it is given and non-empty (PHP's truthiness), an empty map otherwise.
   * Nothing from the ambient environment is ever kept.
   */
  function Supplied(given: Option<map<string, string>>): (kept: map<string, string>)
    ensures kept == if given.Some? then given.value else map[]
  {
    if given.Some? && given.value != map[] then given.value else map[]
  }

  /** A freshly constructed response: no headers, nothing altered, the status as given. */
  function Initial(body: string, status: int, contentType: string,
                   cookies: Option<map<string, string>>, session: Option<map<string, string>>): State
  {
    State(status, contentType, map[], body, Supplied(session), Supplied(cookies), false, false)
  }

  /** setStatus: the status becomes `code` exactly when the table knows it; everything else stays. */
  function WithStatus(s: State, code: int): (r: State)
    ensures r.status == if Status.IsKnownCode(code) then code else s.status
    ensures r.(status := s.status) == s
  {
    if Status.HttpStatus(code).Some? then s.(status := code) else s
  }

  /** setHeader: `name` now maps to `value`, every other header is kept. */
  function WithHeader(s: State, name: string, value: string): (r: State)
    ensures name in r.headers && r.headers[name] == value
    ensures forall n :: n != name ==> (n in r.headers <==> n in s.headers)
    ensures forall n :: n != name && n in s.headers ==> r.headers[n] == s.headers[n]
    ensures r.(headers := s.headers) == s
  {
    s.(headers := s.headers[name := value])
  }

  /** The effect of one call. The flags record exactly the calls that write their map. */
  function Step(s: State, op: Op): (r: State)
    ensures r.sessionAltered == (s.sessionAltered || TouchesSession(op))
    ensures r.cookiesAltered == (s.cookiesAltered || TouchesCookies(op))
    ensures !TouchesSession(op) ==> r.session == s.session
    ensures !TouchesCookies(op) ==> r.cookies == s.cookies
    ensures r.status == s.status || Status.IsKnownCode(r.status)
    ensures r.contentType == s.contentType
    ensures !op.SetBody? ==> s.body <= r.body
  {
    match op
    case Append(section) => s.(body := s.body + section)
    case SetBody(data) => s.(body := data)
    case SetHeader(name, value) => WithHeader(s, name, value)
    case Redirect(url) => WithHeader(WithStatus(s, 301), "Location", url)
    case SetStatus(code) => WithStatus(s, code)
    case SetSession(name, value) => s.(session := s.session[name := value], sessionAltered := true)
    case KillSession(name) => s.(session := s.session - {name}, sessionAltered := true)
    case SetCookie(name, value) => s.(cookies := s.cookies[name := value], cookiesAltered := true)
    case KillCookie(name) => s.(cookies := s.cookies - {name}, cookiesAltered := true)
  }

  /** The effect of a sequence of calls, first to last. */
  function Run(s: State, ops: seq<Op>): State
    decreases |ops|
  {
    if |ops| == 0 then s else Run(Step(s, ops[0]), ops[1..])
  }

  /** After any calls, the session flag is raised iff it was raised before or some call wrote the session map. */
  lemma {:induction false} RunSessionAltered(s: State, ops: seq<Op>)
    ensures Run(s, ops).sessionAltered <==>
            s.sessionAltered || exists i :: 0 <= i < |ops| && TouchesSession(ops[i])
    decreases |ops|
  {
    if |ops| > 0 {
      var rest := ops[1..];
      RunSessionAltered(Step(s, ops[0]), rest);
      if exists i :: 0 <= i < |rest| && TouchesSession(rest[i]) {
        var i :| 0 <= i < |rest| && TouchesSession(rest[i]);
        assert TouchesSession(ops[i + 1]);
      }
      if exists i :: 0 <= i < |ops| && TouchesSession(ops[i]) {
        var i :| 0 <= i < |ops| && TouchesSession(ops[i]);
        if i > 0 {
          assert TouchesSession(rest[i - 1]);
        }
      }
    }
  }

  /** After any calls, the cookie flag is raised iff it was raised before or some call wrote the cookie map. */
  lemma {:induction false} RunCookiesAltered(s: State, ops: seq<Op>)
    ensures Run(s, ops).cookiesAltered <==>
            s.cookiesAltered || exists i :: 0 <= i < |ops| && TouchesCookies(ops[i])
    decreases |ops|
  {
    if |ops| > 0 {
      var rest := ops[1..];
      RunCookiesAltered(Step(s, ops[0]), rest);
      if exists i :: 0 <= i < |rest| && TouchesCookies(rest[i]) {
        var i :| 0 <= i < |rest| && TouchesCookies(rest[i]);
        assert TouchesCookies(ops[i + 1]);
      }
      if exists i :: 0 <= i < |ops| && TouchesCookies(ops[i]) {
        var i :| 0 <= i < |ops| && TouchesCookies(ops[i]);
        if i > 0 {
          assert TouchesCookies(rest[i - 1]);
        }
      }
    }
  }

  /** Calls that do not write the session map leave it as it was. */
  lemma {:induction false} RunKeepsSession(s: State, ops: seq<Op>)
    requires forall i :: 0 <= i < |ops| ==> !TouchesSession(ops[i])
    ensures Run(s, ops).session == s.session
    decreases |ops|
  {
    if |ops| > 0 {
      assert forall i :: 0 <= i < |ops[1..]| ==> ops[1..][i] == ops[i + 1];
      RunKeepsSession(Step(s, ops[0]), ops[1..]);
    }
  }

  /** Calls that do not write the cookie map leave it as it was. */
  lemma {:induction false} RunKeepsCookies(s: State, ops: seq<Op>)
    requires forall i :: 0 <= i < |ops| ==> !TouchesCookies(ops[i])
    ensures Run(s, ops).cookies == s.cookies
    decreases |ops|
  {
    if |ops| > 0 {
      assert forall i :: 0 <= i < |ops[1..]| ==> ops[1..][i] == ops[i + 1];
      RunKeepsCookies(Step(s, ops[0]), ops[1..]);
    }
  }

  /** No call can set an unknown status: the status is the one constructed with, or a known code. */
  lemma {:induction false} RunStatus(s: State, ops: seq<Op>)
    ensures Run(s, ops).status == s.status || Status.IsKnownCode(Run(s, ops).status)
    decreases |ops|
  {
    if |ops| > 0 {
      RunStatus(Step(s, ops[0]), ops[1..]);
    }
  }

  /** Without setBody, the body only grows at its end: the old body is a prefix of the new one. */
  lemma {:induction false} RunBodyExtends(s: State, ops: seq<Op>)
    requires forall i :: 0 <= i < |ops| ==> !ops[i].SetBody?
    ensures s.body <= Run(s, ops).body
    decreases |ops|
  {
    if |ops| > 0 {
      assert forall i :: 0 <= i < |ops[1..]| ==> ops[1..][i] == ops[i + 1];
      RunBodyExtends(Step(s, ops[0]), ops[1..]);
    }
  }

  /** No call changes the content type fixed at construction. */
  lemma {:induction false} RunKeepsContentType(s: State, ops: seq<Op>)
    ensures Run(s, ops).contentType == s.contentType
    decreases |ops|
  {
    if |ops| > 0 {
      RunKeepsContentType(Step(s, ops[0]), ops[1..]);
    }
  }

  /** Headers are last-write-wins: a second write to the same name replaces the first entirely. */
  lemma LastHeaderWins(s: State, name: string, first: string, second: string)
    ensures Step(Step(s, SetHeader(name, first)), SetHeader(name, second)) == Step(s, SetHeader(name, second))
  {
    assert s.headers[name := first][name := second] == s.headers[name := second];
  }

}
