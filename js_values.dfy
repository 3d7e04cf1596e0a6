/** Values as the JavaScript runtime presents them to the modelled code:
    fields that may be absent, the truthiness test on strings, and the few
    String.prototype operations the code calls (slice, trim, toLowerCase,
    includes). */
module JsValues {

  datatype Option<+T> = None | Some(value: T)

  /** A call that either returns a value or throws an Error carrying `error` as its message. */
  datatype Result<+T, +E> = Success(value: T) | Failure(error: E)

  /** `if (x)` on a string field that may be absent: undefined and "" are falsy. */
  predicate Truthy(o: Option<string>)
  {
    o.Some? && o.value != ""
  }

  /** `x || fallback` on a string field that may be absent. */
  function OrElse(o: Option<string>, fallback: string): string
  {
    if Truthy(o) then o.value else fallback
  }

  /** `String(x)`: an absent field renders as "undefined". */
  function JsString(o: Option<string>): string
  {
    if o.Some? then o.value else "undefined"
  }

  /** The value stored under `key`, if any. */
  function Lookup(m: map<string, string>, key: string): Option<string>
  {
    if key in m then Some(m[key]) else None
  }

  function Min(a: int, b: int): int
  {
    if a < b then a else b
  }

  /** `s.slice(b, e)` for non-negative bounds: both are clamped to the length,
      and an empty string results when the clamped start is not before the end. */
  function Slice(s: string, b: nat, e: nat): (r: string)
    ensures |r| <= e - b || |r| == 0
    ensures e <= |s| && b <= e ==> r == s[b..e]
  {
    var lo := Min(b, |s|);
    var hi := Min(e, |s|);
    if lo < hi then s[lo..hi] else ""
  }

  /** The ASCII white-space characters that String.prototype.trim removes. */
  predicate IsWhitespace(c: char)
  {
    c == ' ' || c == '\t' || c == '\n' || c == '\r' || c == '\U{000B}' || c == '\U{000C}'
  }

  function TrimStart(s: string): (r: string)
    ensures |r| <= |s| && r == s[|s| - |r|..]
    ensures r == [] || !IsWhitespace(r[0])
    ensures forall i :: 0 <= i < |s| - |r| ==> IsWhitespace(s[i])
  {
    if s != [] && IsWhitespace(s[0]) then TrimStart(s[1..]) else s
  }

  function TrimEnd(s: string): (r: string)
    ensures |r| <= |s| && r == s[..|r|]
    ensures r == [] || !IsWhitespace(r[|r| - 1])
    ensures forall i :: |r| <= i < |s| ==> IsWhitespace(s[i])
  {
    if s != [] && IsWhitespace(s[|s| - 1]) then TrimEnd(s[..|s| - 1]) else s
  }

  /** `needle` occurs in `hay` starting at index `k`. */
  predicate OccursAt(hay: string, needle: string, k: int)
  {
    0 <= k <= |hay| - |needle| && hay[k..k + |needle|] == needle
  }

  /** `s.trim()`: `s` without the white space at either end. */
  function Trim(s: string): (r: string)
    ensures r == [] || (!IsWhitespace(r[0]) && !IsWhitespace(r[|r| - 1]))
  {
    TrimEnd(TrimStart(s))
  }

  /** A string that starts and ends with non-white-space is left as it is. */
  lemma TrimKeeps(s: string)
    requires s == [] || (!IsWhitespace(s[0]) && !IsWhitespace(s[|s| - 1]))
    ensures Trim(s) == s
  {
  }

  /** Leading white space in front of such a string is removed and nothing else. */
  lemma TrimDropsLeadingSpace(s: string)
    requires s != [] && !IsWhitespace(s[0]) && !IsWhitespace(s[|s| - 1])
    ensures Trim(" " + s) == s
  {
    assert (" " + s)[1..] == s;
  }

  /** `c.toLowerCase()` restricted to ASCII letters. */
  function LowerChar(c: char): char
  {
    if 'A' <= c <= 'Z' then (c as int + 32) as char else c
  }

  function Lower(s: string): (r: string)
    ensures |r| == |s|
    ensures forall i :: 0 <= i < |s| ==> r[i] == LowerChar(s[i])
  {
    if s == [] then [] else [LowerChar(s[0])] + Lower(s[1..])
  }

  /** Lowering twice is lowering once, so folding an already-folded query changes nothing. */
  lemma LowerIdempotent(s: string)
    ensures Lower(Lower(s)) == Lower(s)
  {
  }

  /** `hay.includes(needle)`: `needle` occurs in `hay` at some position. */
  predicate Includes(hay: string, needle: string)
    ensures Includes(hay, needle) ==> |needle| <= |hay|
  {
    needle <= hay || (hay != [] && Includes(hay[1..], needle))
  }

  /** `Includes` holds exactly when some window of `hay` equals `needle`. */
  lemma IncludesIffWindow(hay: string, needle: string)
    ensures Includes(hay, needle) <==> exists k :: OccursAt(hay, needle, k)
  {
    if Includes(hay, needle) {
      var k := IncludedAt(hay, needle);
    }
    if exists k :: OccursAt(hay, needle, k) {
      var k :| OccursAt(hay, needle, k);
      WindowIncluded(hay, needle, k);
    }
  }

  /** A position where an included needle occurs. */
  lemma {:induction false} IncludedAt(hay: string, needle: string) returns (k: nat)
    requires Includes(hay, needle)
    ensures OccursAt(hay, needle, k)
  {
    if needle <= hay {
      k := 0;
    } else {
      var j := IncludedAt(hay[1..], needle);
      k := j + 1;
      assert hay[k..k + |needle|] == hay[1..][j..j + |needle|];
    }
  }

  /** A needle occurring at some position is included. */
  lemma {:induction false} WindowIncluded(hay: string, needle: string, k: int)
    requires OccursAt(hay, needle, k)
    ensures Includes(hay, needle)
  {
    if k > 0 {
      assert OccursAt(hay[1..], needle, k - 1);
      WindowIncluded(hay[1..], needle, k - 1);
    }
  }

  /** Every string includes the empty string. */
  lemma {:induction false} IncludesEmpty(hay: string)
    ensures Includes(hay, "")
  {
  }
}
