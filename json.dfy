/** JSON values as the route handlers receive them, with JavaScript truthiness. */
module Json {
  import opened Wrappers

  /** A field of a parsed request body; Undefined is a missing field. */
  datatype Value =
    | Undefined
    | Null
    | Str(s: string)
    | Num(n: int)
    | Bool(b: bool)
    /**
     * An object.  `length` is what its own `length` property converts to
     * as a number (null gives 0, "5" gives 5), or None when the property is
     * missing or converts to NaN.
     */
    | Obj(length: Option<int>)

  /** JavaScript truthiness: undefined, null, "", 0 and false are falsy. */
  predicate Truthy(v: Value)
  {
    match v
    case Undefined => false
    case Null => false
    case Str(s) => s != ""
    case Num(n) => n != 0
    case Bool(b) => b
    case Obj(_) => true
  }

  /**
   * JavaScript's `length` of a string: the number of UTF-16 code units, so a
   * character beyond U+FFFF counts twice (a surrogate pair).
   */
  function Utf16Length(s: string): (n: nat)
    ensures |s| <= n <= 2 * |s|
  {
    if s == [] then 0
    else Utf16Length(s[..|s| - 1]) + (if s[|s| - 1] as int > 0xFFFF then 2 else 1)
  }

  /** Within the Basic Multilingual Plane the code-unit count is the character count. */
  lemma {:induction false} Utf16LengthOfBmp(s: string)
    requires forall k :: 0 <= k < |s| ==> s[k] as int <= 0xFFFF
    ensures Utf16Length(s) == |s|
  {
    if s != [] {
      Utf16LengthOfBmp(s[..|s| - 1]);
    }
  }

  /** A string of characters beyond U+FFFF has twice as many code units as characters. */
  lemma {:induction false} Utf16LengthOfAstral(s: string)
    requires forall k :: 0 <= k < |s| ==> s[k] as int > 0xFFFF
    ensures Utf16Length(s) == 2 * |s|
  {
    if s != [] {
      Utf16LengthOfAstral(s[..|s| - 1]);
    }
  }

  /** The code-unit count of a concatenation is the sum of the counts. */
  lemma {:induction false} Utf16LengthAppend(a: string, b: string)
    ensures Utf16Length(a + b) == Utf16Length(a) + Utf16Length(b)
  {
    if b != [] {
      assert (a + b)[..|a + b| - 1] == a + b[..|b| - 1];
      Utf16LengthAppend(a, b[..|b| - 1]);
    } else {
      assert a + b == a;
    }
  }

  /** `error || fallback` for an optional string: a missing or empty error gives the fallback. */
  function MessageOr(error: Option<string>, fallback: string): (m: string)
    ensures error.Some? && error.value != "" ==> m == error.value
    ensures error.None? || error.value == "" ==> m == fallback
  {
    if error.Some? && error.value != "" then error.value else fallback
  }
}
