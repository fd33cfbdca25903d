/**
 * The small pieces of JavaScript semantics that the page handlers rely on:
 * truthiness of a string-or-missing value, the `a || b` fallback, what a
 * `catch (err: unknown)` clause turns into a message, `Response.ok`, and
 * `String.prototype.trim`.
 */
module Js {
  import opened Wrappers

  /** What a rejected promise or a `throw` can hand to a `catch` clause. */
  datatype Thrown =
    | ErrorObject(message: string)   // an instance of `Error` (including `SyntaxError`, `TypeError`)
    | NonError                       // any other thrown value

  /** The message both pages show for a thrown value that is not an `Error`. */
  const UnexpectedError: string := "An unexpected error occurred."

  /** The message a handler's `catch` clause stores in `error`. */
  function CaughtMessage(t: Thrown): (m: string)
    ensures t.ErrorObject? ==> m == t.message
    ensures t.NonError? ==> m == UnexpectedError
  {
    match t
    case ErrorObject(m) => m
    case NonError => UnexpectedError
  }

  /** A string-or-missing value is truthy when it is present and not empty. */
  predicate Truthy(v: Option<string>) {
    v.Some? && v.value != ""
  }

  /** `v || fallback`: the value itself when it is truthy, otherwise the fallback. */
  function Or(v: Option<string>, fallback: string): (r: string)
    ensures Truthy(v) ==> r == v.value
    ensures !Truthy(v) ==> r == fallback
    ensures fallback != "" ==> r != ""
  {
    if Truthy(v) then v.value else fallback
  }

  /** `Response.ok`: the status lies in the range 200-299. */
  predicate IsOk(status: int) {
    200 <= status <= 299
  }

  /**
   * The characters `trim` removes: the WhiteSpace and LineTerminator code
   * points of the ECMAScript language specification (ECMA-262), that is tab,
   * vertical tab, form feed, space, no-break space, the byte order mark, the
   * Unicode space separators, line feed, carriage return, and the line and
   * paragraph separators.
   */
  predicate IsWhitespace(c: char) {
    || c == '\t' || c == '\n' || c == '\U{000B}' || c == '\U{000C}' || c == '\r' || c == ' '
    || c == '\U{00A0}' || c == '\U{1680}' || ('\U{2000}' <= c <= '\U{200A}')
    || c == '\U{2028}' || c == '\U{2029}' || c == '\U{202F}' || c == '\U{205F}'
    || c == '\U{3000}' || c == '\U{FEFF}'
  }

  /** Every character of `s` is whitespace (vacuously true of the empty string). */
  predicate Blank(s: string) {
    forall i | 0 <= i < |s| :: IsWhitespace(s[i])
  }

  /** Drops the leading whitespace: what is dropped is blank, what is kept starts with a non-blank. */
  function TrimStart(s: string): (r: string)
    ensures |r| <= |s| && r == s[|s| - |r|..]
    ensures Blank(s[..|s| - |r|])
    ensures r != [] ==> !IsWhitespace(r[0])
    decreases |s|
  {
    if s != [] && IsWhitespace(s[0]) then
      var r := TrimStart(s[1..]);
      var dropped := s[..|s| - |r|];
      assert dropped == [s[0]] + s[1..][..|s[1..]| - |r|];
      forall i | 0 <= i < |dropped| ensures IsWhitespace(dropped[i]) {
        if i > 0 {
          assert dropped[i] == s[1..][..|s[1..]| - |r|][i - 1];
        }
      }
      r
    else
      s
  }

  /** Drops the trailing whitespace: what is dropped is blank, what is kept ends with a non-blank. */
  function TrimEnd(s: string): (r: string)
    ensures |r| <= |s| && r == s[..|r|]
    ensures Blank(s[|r|..])
    ensures r != [] ==> !IsWhitespace(r[|r| - 1])
    decreases |s|
  {
    if s != [] && IsWhitespace(s[|s| - 1]) then
      var r := TrimEnd(s[..|s| - 1]);
      var dropped := s[|r|..];
      assert dropped == s[..|s| - 1][|r|..] + [s[|s| - 1]];
      forall i | 0 <= i < |dropped| ensures IsWhitespace(dropped[i]) {
        if i < |dropped| - 1 {
          assert dropped[i] == s[..|s| - 1][|r|..][i];
        }
      }
      r
    else
      s
  }

  /** Trimming both ends leaves nothing exactly when every character is whitespace. */
  lemma TrimBothEmptyIffBlank(s: string)
    ensures TrimEnd(TrimStart(s)) == "" <==> Blank(s)
  {
    var t := TrimStart(s);
    var k := |s| - |t|;
    if t == "" {
      assert s[..k] == s;
    } else {
      assert !IsWhitespace(s[k]) by { assert t[0] == s[k]; }
    }
  }

  /**
   * `String.prototype.trim`. The result is empty exactly when the input is
   * blank, and a non-empty result neither starts nor ends with whitespace.
   */
  function Trim(s: string): (r: string)
    ensures r == "" <==> Blank(s)
    ensures r != "" ==> !IsWhitespace(r[0]) && !IsWhitespace(r[|r| - 1])
  {
    TrimBothEmptyIffBlank(s);
    var t := TrimStart(s);
    var r := TrimEnd(t);
    assert r != [] ==> r[0] == t[0];
    r
  }
}
