/** Values and string helpers shared by the dashboard's pages: the optional and
    error-carrying results the handlers produce, JavaScript truthiness of the
    values they test, prefix and substring tests, `Array.prototype.join`,
    whitespace as `String.prototype.trim` sees it, and the decimal text of a
    non-negative integer (`Number.prototype.toString`). */
module Util {

  datatype Option<+T> = None | Some(value: T)

  datatype Result<+T, +E> = Ok(value: T) | Err(error: E)

  /** How a request the pages send comes back: an answer whose `success`
      field is read, or a failure (the promise rejects) that may carry the
      backend's `error` text. */
  datatype Reply = Answered(success: bool) | Failed(serverError: Option<string>)

  /** `err.response?.data?.error || fallback`: the backend's text when it is
      present and non-empty, the page's own message otherwise. */
  function ErrorText(serverError: Option<string>, fallback: string): (r: string)
    ensures serverError.Some? && serverError.value != "" ==> r == serverError.value
    ensures serverError.None? || serverError.value == "" ==> r == fallback
    ensures r == fallback || (serverError.Some? && r == serverError.value)
    ensures fallback != "" ==> r != ""
  {
    if serverError.Some? && serverError.value != "" then serverError.value else fallback
  }

  /** `if (id)` on an id that the backend sends as a number and a select box
      holds as `''` until something is chosen: `''`, `null` and `0` are falsy. */
  predicate Picked(id: Option<int>) {
    id.Some? && id.value != 0
  }

  predicate StartsWith(s: string, prefix: string) {
    |prefix| <= |s| && s[..|prefix|] == prefix
  }

  /** `s.includes(part)`: `part` starts at some position of `s`. */
  function Includes(s: string, part: string): (r: bool)
    ensures r <==> exists i :: 0 <= i <= |s| && StartsWith(s[i..], part)
    decreases |s|
  {
    if StartsWith(s, part) then
      assert s[0..] == s;
      true
    else if |s| == 0 then false
    else
      var rest := Includes(s[1..], part);
      assert forall i :: 1 <= i <= |s| ==> s[i..] == s[1..][i - 1..];
      assert s[0..] == s;
      rest
  }

  /** `parts.join(sep)` */
  function Join(parts: seq<string>, sep: string): string {
    if |parts| == 0 then ""
    else if |parts| == 1 then parts[0]
    else parts[0] + sep + Join(parts[1..], sep)
  }

  /** One `name=value` entry of a query string, the value already text. */
  datatype QueryParam = QueryParam(name: string, value: string)

  /** The value sent under `name`: that of its first entry, if any. */
  function Lookup(params: seq<QueryParam>, name: string): (r: Option<string>)
    ensures r.None? <==> forall i :: 0 <= i < |params| ==> params[i].name != name
    ensures r.Some? ==> QueryParam(name, r.value) in params
  {
    if params == [] then None
    else if params[0].name == name then Some(params[0].value)
    else Lookup(params[1..], name)
  }

  /** Looking a name up in two lists joined: the first list's entry if it
      has one, else the second's. */
  lemma {:induction false} LookupAppend(front: seq<QueryParam>, back: seq<QueryParam>, name: string)
    ensures Lookup(front + back, name) ==
      if Lookup(front, name).Some? then Lookup(front, name) else Lookup(back, name)
    decreases |front|
  {
    if front == [] {
      assert front + back == back;
    } else {
      assert (front + back)[0] == front[0];
      assert (front + back)[1..] == front[1..] + back;
      LookupAppend(front[1..], back, name);
    }
  }

  function FirstSome(a: Option<string>, b: Option<string>): Option<string> {
    if a.Some? then a else b
  }

  /** An entry that is sent only when its value is truthy: `...(v && { name: v })`. */
  function IfNotEmpty(name: string, value: string): (r: seq<QueryParam>)
    ensures value == "" ==> r == []
    ensures value != "" ==> r == [QueryParam(name, value)]
  {
    if value == "" then [] else [QueryParam(name, value)]
  }

  /** The one entry `IfNotEmpty` may add answers only to its own name. */
  lemma LookupIfNotEmpty(name: string, value: string, wanted: string)
    ensures Lookup(IfNotEmpty(name, value), wanted) ==
      if name == wanted && value != "" then Some(value) else None
  {
  }

  /** The characters `String.prototype.trim` removes: the ECMAScript
      WhiteSpace and LineTerminator code points. */
  predicate IsJsWhitespace(c: char) {
    || c == '\t' || c == '\n' || c == '\U{000B}' || c == '\U{000C}' || c == '\r'
    || c == ' ' || c == '\U{00A0}' || c == '\U{1680}'
    || ('\U{2000}' <= c <= '\U{200A}')
    || c == '\U{2028}' || c == '\U{2029}' || c == '\U{202F}' || c == '\U{205F}'
    || c == '\U{3000}' || c == '\U{FEFF}'
  }

  /** `s.trim() === ''` */
  predicate IsBlank(s: string) {
    forall i :: 0 <= i < |s| ==> IsJsWhitespace(s[i])
  }

  predicate IsDigit(c: char) {
    '0' <= c <= '9'
  }

  predicate AllDigits(s: string) {
    forall i :: 0 <= i < |s| ==> IsDigit(s[i])
  }

  function DigitChar(d: nat): (c: char)
    requires d < 10
    ensures IsDigit(c) && c as int - '0' as int == d
  {
    ('0' as int + d) as char
  }

  /** `n.toString()` for a non-negative integer: its shortest decimal text. */
  function DecimalString(n: nat): (r: string)
    ensures |r| >= 1 && AllDigits(r)
    ensures |r| > 1 ==> r[0] != '0'
  {
    if n < 10 then [DigitChar(n)] else DecimalString(n / 10) + [DigitChar(n % 10)]
  }

  /** The number a string of decimal digits denotes, as a server reading a
      decimal field would compute it. */
  function DigitsValue(s: string): nat
    requires AllDigits(s)
  {
    if s == [] then 0 else DigitsValue(s[..|s| - 1]) * 10 + (s[|s| - 1] as int - '0' as int)
  }

  /** The decimal text of `n` reads back as `n`. */
  lemma {:induction false} DecimalStringRoundTrip(n: nat)
    ensures DigitsValue(DecimalString(n)) == n
  {
    if n >= 10 {
      var s := DecimalString(n);
      DecimalStringRoundTrip(n / 10);
      assert s[..|s| - 1] == DecimalString(n / 10);
    }
  }

  /** Distinct numbers never render to the same text. */
  lemma DecimalStringInjective(m: nat, n: nat)
    requires DecimalString(m) == DecimalString(n)
    ensures m == n
  {
    DecimalStringRoundTrip(m);
    DecimalStringRoundTrip(n);
  }
}
