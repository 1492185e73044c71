# Assegai response object, modelled in Dafny

This project models `assegai\Response`, the HTTP response object of the Assegai
PHP framework. A response holds a status code, a content type, a header map
(last write wins), a body, and session and cookie maps, each with an "altered"
flag. Handler code mutates it through setters. `compile()` is the last step. It
merges the session map into the environment's session store when a session is
active, and always merges the cookie map into the cookie store. It emits a status
line, a Content-Type line, one line per header, and the body.

Files:

- `options.dfy`: `Option`, used where PHP returns the `false` sentinel.
- `status.dfy`: the fixed status table (`HttpStatus`) and the known code ranges (`IsKnownCode`).
  It proves that the table holds exactly those codes. It also proves that every status text is exactly a run of digits without a leading zero, one space and the reason phrase, and that the digits, read back by an independent decimal reader (`DecimalValue`), give the code.
- `response_state.dfy`: the response's fields as a value (`State`), its mutating calls (`Op`), their effect (`Step`, `Run`).
  Lemmas say what any sequence of calls does to the flags, the maps, the status and the body.
- `response.dfy`: the class `Response`, with one field per PHP property and one method per setter.
  Each setter is proved to change the object exactly as `Step` says. `Compile` takes an `Environment` value and returns the new one.

The environment `compile()` talks to is an explicit `Environment` value. It holds
whether a session is active, the session store, the cookie store, and the output
lines. The constructor takes the environment and ignores it: the PHP constructor reads `$_SESSION`/`$_COOKIE` only into a local variable that it drops.

The constructor follows the code, not the intent. When no session (or cookie) array is given, or an empty one,
the PHP constructor copies the ambient store into a local variable and never stores it
(`src/assegai/Response.php:55-67`, `:72-73`), so `sessionvars`/`cookievars` stay unset.
The model does the same: the maps start empty and do not depend on the environment.
The status passed to the constructor is stored without checking it against the table.
A later `compile()` of an unknown status emits the bare `HTTP/1.1 ` line, because PHP's `false` concatenates as the empty string.

The status table is written as one reason phrase per code (section 10 of RFC 2616).
`HttpStatus` joins the decimal code, a space and the phrase. This gives the same 41 texts as the PHP array, character for character.

The plain accessors `GetBody`, `GetHeaders`, `GetStatus`, `AlteredSession`, `AlteredCookies`,
`GetAllSession` and `GetAllCookies` are functions that return the matching part of the abstract
`State`. Being functions, they cannot change state, so reads never raise a flag. What they return
after each call is given by `Step`, the setters' contracts and the `Run` lemmas.

## Model

| member | source | states |
|---|---|---|
| `Status.HttpStatus` | src/assegai/Response.php:279-330 | httpStatus returns a text exactly for the codes 100-101, 200-206, 300-307, 400-417, 500-505, and the `false` sentinel (`None`) for every other code; each text is exactly digits without a leading zero that read back as the code, one space, and the code's reason phrase, with nothing else |
| `Status.DecimalRoundTrip` | src/assegai/Response.php:282-322 | the digits the table writes for a code read back, digit by digit, as that code |
| `Status.CodeSpacePhrase` | src/assegai/Response.php:282-322 | a text made of a code's digits, a space and a phrase is digits without a leading zero that read as the code, one space, and then exactly that phrase |
| `Status.DecimalLeading` | src/assegai/Response.php:282-322 | the digits written for a code start with a non-zero digit unless the code is 0, so no text carries a leading zero |
| `Status.ReasonPhrase` | src/assegai/Response.php:281-323 | the `$statuses` array has an entry exactly for the codes of the five ranges, checked both ways against `IsKnownCode`, and every entry is a non-empty phrase |
| `ResponseState.Supplied` | src/assegai/Response.php:55-76 | the constructor keeps a session/cookie array only when one is given; absent and empty both leave an empty map, whatever the environment holds |
| `ResponseState.WithStatus` | src/assegai/Response.php:245-251 | the status becomes `code` iff the code is known, otherwise stays; no other field changes |
| `ResponseState.WithHeader` | src/assegai/Response.php:129-133 | the header `name` maps to `value`; every other header keeps its presence and value; no other field changes |
| `ResponseState.Step` | src/assegai/Response.php:88-251 | per call: a flag is raised iff the call writes its map and never lowered; the other map is untouched; the status stays or becomes a known code; the content type never changes; the body only grows unless setBody is called |
| `ResponseState.RunSessionAltered` | src/assegai/Response.php:164-199 | after any sequence of calls, alteredSession() is true iff it was before or some call was setSession/killSession |
| `ResponseState.RunCookiesAltered` | src/assegai/Response.php:201-225 | after any sequence of calls, alteredCookies() is true iff it was before or some call was setCookie/killCookie |
| `ResponseState.RunKeepsSession` | src/assegai/Response.php:201-239 | a sequence of calls without setSession/killSession leaves the session map as it was |
| `ResponseState.RunKeepsCookies` | src/assegai/Response.php:164-199 | a sequence of calls without setCookie/killCookie leaves the cookie map as it was |
| `ResponseState.RunStatus` | src/assegai/Response.php:78-78 | after any calls the status is the constructed one or a known code: no setter stores an unknown code |
| `ResponseState.RunBodyExtends` | src/assegai/Response.php:88-92 | without setBody, the old body is a prefix of the new one after any calls |
| `ResponseState.RunKeepsContentType` | src/assegai/Response.php:79-79 | no call changes the content type fixed at construction |
| `ResponseState.LastHeaderWins` | src/assegai/Response.php:129-133 | two writes to the same header name leave the same state as the second write alone |
| `Responses.Merge` | src/assegai/Response.php:350-350 | the merged store has the keys of both; entries of the response's map override; entries only in the environment are kept |
| `Responses.StatusLine` | src/assegai/Response.php:353-353 | for a known code the status line is `HTTP/1.1 `, digits without a leading zero that read as the code, one space and exactly the code's reason phrase; for an unknown one it is exactly `HTTP/1.1 ` |
| `Responses.HeaderLines` | src/assegai/Response.php:355-357 | one line per visited header, the i-th being `name: value` of the i-th name |
| `Responses.EmitHeaders` | src/assegai/Response.php:355-357 | the `foreach` visits every header name exactly once and appends exactly its `name: value` line, in the visiting order it reports |
| `Responses.PageShape` | src/assegai/Response.php:353-361 | the page has 3 + number-of-headers lines, and every header's `name: value` line is among them |
| `Responses.Response.constructor` | src/assegai/Response.php:44-82 | both flags false, no headers, status/body/content type as given (status unchecked), maps only from explicitly supplied non-empty arrays |
| `Responses.Response.Append` | src/assegai/Response.php:88-92 | the body becomes the old body followed by the formatted section, so the old body is a prefix |
| `Responses.Response.Redirect` | src/assegai/Response.php:98-103 | status 301 and `Location` = url; every other header, the body and both maps unchanged |
| `Responses.Response.SetBody` | src/assegai/Response.php:109-113 | the body becomes exactly `data`; nothing else changes |
| `Responses.Response.SetHeader` | src/assegai/Response.php:129-133 | getHeader(name) returns the value; every other header reads back as before |
| `Responses.Response.GetHeader` | src/assegai/Response.php:140-147 | an absent header gives the `None` sentinel, distinct from any set value including the empty string |
| `Responses.Response.SetSession` | src/assegai/Response.php:164-169 | alteredSession() becomes true; getSession(name, d) returns the value for every default d; other keys, the cookie map and its flag unchanged |
| `Responses.Response.GetSession` | src/assegai/Response.php:177-184 | the stored value for a present key, the caller's default for an absent one |
| `Responses.Response.KillSession` | src/assegai/Response.php:190-195 | alteredSession() becomes true; getSession(name, d) returns d; other keys, the cookie map and its flag unchanged |
| `Responses.Response.KillCookie` | src/assegai/Response.php:209-214 | alteredCookies() becomes true; getCookie(name, d) returns d; other keys, the session map and its flag unchanged |
| `Responses.Response.SetCookie` | src/assegai/Response.php:221-225 | alteredCookies() becomes true; getCookie(name, d) returns the value; other keys, the session map and its flag unchanged |
| `Responses.Response.GetCookie` | src/assegai/Response.php:232-239 | the stored value for a present key, the caller's default for an absent one |
| `Responses.Response.GetBody` | src/assegai/Response.php:119-122 | returns the body of the abstract state, which `Step` and `RunBodyExtends` describe after each call |
| `Responses.Response.GetHeaders` | src/assegai/Response.php:153-156 | returns the header map of the abstract state, one value per name, the last one written |
| `Responses.Response.AlteredSession` | src/assegai/Response.php:197-199 | returns the session flag of the abstract state, which `RunSessionAltered` characterises both ways |
| `Responses.Response.AlteredCookies` | src/assegai/Response.php:201-203 | returns the cookie flag of the abstract state, which `RunCookiesAltered` characterises both ways |
| `Responses.Response.GetAllCookies` | src/assegai/Response.php:256-258 | returns the cookie map of the abstract state |
| `Responses.Response.GetAllSession` | src/assegai/Response.php:263-265 | returns the session map of the abstract state |
| `Responses.Response.GetStatus` | src/assegai/Response.php:270-273 | returns the status of the abstract state, which `RunStatus` bounds to the constructed status or a known code |
| `Responses.Response.SetStatus` | src/assegai/Response.php:245-251 | the status becomes `code` iff the code is known, otherwise stays; nothing else changes |
| `Responses.Response.Compile` | src/assegai/Response.php:335-362 | with an active session the session store becomes store-overridden-by-sessionvars, otherwise it is unchanged; the cookie store is always merged the same way; the output gains the status line, the Content-Type line, each header exactly once, then the body (3 + number-of-headers lines); the response is unchanged |

## Left out

- `Responses.Response.Append`: the printf formatting of `append`'s arguments is a foreign library call; the model takes the already formatted section.
- Detecting the ambient session (`session_status()`, `session_id()`, `isset($_SESSION)`) is replaced by the `sessionActive` flag of the environment.
- `header()` and `echo` are replaced by appending lines to the environment's `output`. This loses three things PHP's `header()` does:
  - A later header replaces an earlier one with the same name, ignoring case. So a header `Content-Type` or `content-type` in the map replaces the Content-Type line, and names that differ only in case go out once.
  - `header('Location: …')` makes PHP send status 302 unless a 201 or 3xx status is already set.
  - So the 3 + number-of-headers lines that `PageShape` and `Compile` count are lines of the model, not headers on the wire.
- Method chaining (`return $this`) is not modelled: methods return nothing. The source's `setCookie` does not return `$this`, so a chain breaks there.
- Values are non-null strings. PHP's `isset` treats a null value as absent, and the model has no null. `getSession`/`getCookie` take the default explicitly, because PHP's default `false` is not a string.
- PHP leaves `sessionvars`/`cookievars` null when no array is given. The model uses the empty map, which makes `compile()`'s `is_array` fix-up a no-op. In the source, a response built without a cookie array and never given a `setCookie` reaches `@array_merge($_COOKIE, null)` (`src/assegai/Response.php:359`). In PHP 5 and 7 that returns null and so replaces the whole cookie store with null; in PHP 8 it throws a TypeError. The model instead leaves the cookie store unchanged in that case.
- `array_merge` renumbering integer keys and its `@`-suppressed warnings: keys are strings.
- Header emission order: PHP emits headers in insertion order. The model emits each header exactly once, in an order it does not fix.
- Calling `compile()` at most once is a usage rule of the caller, not checked.
- `src/assegai/Framework.php` and the `Injector` service container: Framework only registers services with `Injector`, and the `Injector` class is not part of this model. Service resolution, singleton caching and cycle detection are therefore not modelled.
