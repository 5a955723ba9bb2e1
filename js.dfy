/** The few JavaScript value semantics the hooks and components rely on:
    `undefined`-able values, string truthiness, `startsWith('0x')`,
    `toLowerCase()` and `String.prototype.slice`. */
module Js {

  /** A value that may be `undefined` (or `null`). */
  datatype Option<+T> = None | Some(value: T)

  /** A string is truthy in JavaScript exactly when it is non-empty. */
  predicate Truthy(s: string) {
    s != []
  }

  /** An optional string is truthy when it is present and non-empty. */
  predicate TruthyOpt(s: Option<string>) {
    s.Some? && s.value != []
  }

  /** `s.startsWith('0x')` */
  function HasHexPrefix(s: string): (r: bool)
    ensures r <==> |s| >= 2 && s[..2] == "0x"
    ensures r ==> Truthy(s)
  {
    |s| >= 2 && s[0] == '0' && s[1] == 'x'
  }

  /** `toLowerCase()` on one character, for the ASCII letters. */
  function LowerChar(c: char): (r: char)
    ensures 'A' <= c <= 'Z' ==> 'a' <= r <= 'z' && r as int - c as int == 32
    ensures !('A' <= c <= 'Z') ==> r == c
  {
    if 'A' <= c <= 'Z' then (c as int + 32) as char else c
  }

  /** `s.toLowerCase()`: lowers every character and keeps the length. */
  function ToLower(s: string): (r: string)
    ensures |r| == |s|
    ensures forall i :: 0 <= i < |s| ==> r[i] == LowerChar(s[i])
  {
    seq(|s|, i requires 0 <= i < |s| => LowerChar(s[i]))
  }

  /** `a.toLowerCase() === b.toLowerCase()` */
  predicate SameIgnoringCase(a: string, b: string) {
    ToLower(a) == ToLower(b)
  }

  /** Resolves a `slice` argument against a length the way JavaScript does:
      a negative index counts from the end, and the result is clamped to [0, len]. */
  function SliceIndex(len: nat, k: int): (r: nat)
    ensures r <= len
    ensures 0 <= k <= len ==> r == k
    ensures k < 0 && -k <= len ==> r == len + k
    ensures k > len ==> r == len
    ensures k + len < 0 ==> r == 0
  {
    if k < 0 then (if len + k < 0 then 0 else len + k)
    else if k > len then len
    else k
  }

  /** `s.slice(start, end)` */
  function Slice(s: string, start: int, end: int): (r: string)
    ensures |r| <= |s|
    ensures SliceIndex(|s|, start) <= SliceIndex(|s|, end) ==>
              r == s[SliceIndex(|s|, start)..SliceIndex(|s|, end)]
    ensures SliceIndex(|s|, start) >= SliceIndex(|s|, end) ==> r == []
  {
    var from, to := SliceIndex(|s|, start), SliceIndex(|s|, end);
    if from < to then s[from..to] else []
  }

  /** `s.slice(start)`, which runs to the end of the string. */
  function SliceFrom(s: string, start: int): (r: string)
    ensures r == s[SliceIndex(|s|, start)..]
  {
    Slice(s, start, |s|)
  }
}
