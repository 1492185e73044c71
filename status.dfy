/**
 * The fixed table of HTTP status codes the response accepts. A status text
 * is a Status-Line tail as in section 6.1 of RFC 2616: the code in decimal,
 * one space, and the reason phrase given for it in section 10 of RFC 2616.
 */
module Status {
  import opened Options

  /**
   * The `$statuses` array as one reason phrase per code: a phrase exists
   * exactly for the five known ranges, and none is empty.
   */
  function ReasonPhrase(code: int): (r: Option<string>)
    ensures r.Some? <==> IsKnownCode(code)
    ensures r.Some? ==> |r.value| > 0
  {
    match code
    case 100 => Some("Continue")
    case 101 => Some("Switching Protocols")
    case 200 => Some("OK")
    case 201 => Some("Created")
    case 202 => Some("Accepted")
    case 203 => Some("Non-Authoritative Information")
    case 204 => Some("No Content")
    case 205 => Some("Reset Content")
    case 206 => Some("Partial Content")
    case 300 => Some("Multiple Choices")
    case 301 => Some("Moved Permanently")
    case 302 => Some("Found")
    case 303 => Some("See Other")
    case 304 => Some("Not Modified")
    case 305 => Some("Use Proxy")
    case 306 => Some("(Unused)")
    case 307 => Some("Temporary Redirect")
    case 400 => Some("Bad Request")
    case 401 => Some("Unauthorized")
    case 402 => Some("Payment Required")
    case 403 => Some("Forbidden")
    case 404 => Some("Not Found")
    case 405 => Some("Method Not Allowed")
    case 406 => Some("Not Acceptable")
    case 407 => Some("Proxy Authentication Required")
    case 408 => Some("Request Timeout")
    case 409 => Some("Conflict")
    case 410 => Some("Gone")
    case 411 => Some("Length Required")
    case 412 => Some("Precondition Failed")
    case 413 => Some("Request Entity Too Large")
    case 414 => Some("Request-URI Too Long")
    case 415 => Some("Unsupported Media Type")
    case 416 => Some("Requested Range Not Satisfiable")
    case 417 => Some("Expectation Failed")
    case 500 => Some("Internal Server Error")
    case 501 => Some("Not Implemented")
    case 502 => Some("Bad Gateway")
    case 503 => Some("Service Unavailable")
    case 504 => Some("Gateway Timeout")
    case 505 => Some("HTTP Version Not Supported")
    case _ => None
  }

  /** A decimal digit character. */
  predicate IsDigit(c: char)
  {
    '0' <= c <= '9'
  }

  /** The decimal digits of `n`, most significant first. */
  function DecimalString(n: nat): (s: string)
    ensures |s| > 0
    ensures forall i :: 0 <= i < |s| ==> IsDigit(s[i])
  {
    if n < 10 then [('0' as int + n) as char]
    else DecimalString(n / 10) + [('0' as int + n % 10) as char]
  }

  /** The number a string of decimal digits denotes, read independently of how it was written. */
  function DecimalValue(s: string): nat
    requires forall i :: 0 <= i < |s| ==> IsDigit(s[i])
    decreases |s|
  {
    if |s| == 0 then 0
    else
      assert IsDigit(s[|s| - 1]);
      DecimalValue(s[..|s| - 1]) * 10 + (s[|s| - 1] as int - '0' as int)
  }

  /** Reading back the decimal digits of `n` gives `n`. */
  lemma {:induction false} DecimalRoundTrip(n: nat)
    ensures DecimalValue(DecimalString(n)) == n
    decreases n
  {
    if n >= 10 {
      var s := DecimalString(n);
      assert s[..|s| - 1] == DecimalString(n / 10);
      DecimalRoundTrip(n / 10);
    }
  }

  /** The decimal digits of `n` have no leading zero, except for `n == 0` itself. */
  lemma {:induction false} DecimalLeading(n: nat)
    ensures DecimalString(n)[0] != '0' || n == 0
    decreases n
  {
    if n >= 10 {
      DecimalLeading(n / 10);
      assert DecimalString(n)[0] == DecimalString(n / 10)[0];
    }
  }

  /**
   * `text` is exactly a run of digits that reads as `code`, with no leading
   * zero, one space, and `phrase`: nothing stands between the space and the
   * phrase or after it.
   */
  ghost predicate CodeThenPhrase(text: string, code: int, phrase: string)
  {
    exists k :: 0 < k < |text| && text[k] == ' ' &&
      (forall i :: 0 <= i < k ==> IsDigit(text[i])) &&
      (text[0] != '0' || k == 1) &&
      DecimalValue(text[..k]) == code &&
      text[k + 1..] == phrase
  }

  /** The code in decimal, a space and a phrase: the digits read as the code and the phrase is the rest of the text. */
  lemma CodeSpacePhrase(code: nat, phrase: string)
    ensures CodeThenPhrase(DecimalString(code) + " " + phrase, code, phrase)
  {
    var digits := DecimalString(code);
    var text := digits + " " + phrase;
    assert text[..|digits|] == digits;
    DecimalRoundTrip(code);
    DecimalLeading(code);
    assert text[0] == digits[0];
    assert text[|digits|] == ' ';
    assert text[|digits| + 1..] == phrase;
  }

  /** The known codes as ranges, independently of the table: 100-101, 200-206, 300-307, 400-417, 500-505. */
  predicate IsKnownCode(code: int)
  {
    || 100 <= code <= 101
    || 200 <= code <= 206
    || 300 <= code <= 307
    || 400 <= code <= 417
    || 500 <= code <= 505
  }

  /**
   * httpStatus: the full status text of a code in the table (for 404, the
   * text "404 Not Found"), and `None` (PHP's `false`) for every other code.
   * A text exists exactly for the known codes; it is the code's digits,
   * without a leading zero, one space, and the code's reason phrase.
   */
  function HttpStatus(code: int): (r: Option<string>)
    ensures r.Some? <==> IsKnownCode(code)
    ensures r.Some? ==> CodeThenPhrase(r.value, code, ReasonPhrase(code).value)
  {
    match ReasonPhrase(code)
    case Some(phrase) =>
      CodeSpacePhrase(code, phrase);
      Some(DecimalString(code) + " " + phrase)
    case None => None
  }

}
