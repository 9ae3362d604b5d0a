/** The JavaScript string operations the query builder relies on. */
module JsStrings {

  /** `String.prototype.toLowerCase` restricted to ASCII letters; every other character is kept. */
  function LowerChar(c: char): (r: char)
    ensures 'A' <= c <= 'Z' ==> 'a' <= r <= 'z' && r as int - c as int == 32
    ensures !('A' <= c <= 'Z') ==> r == c
  {
    if 'A' <= c <= 'Z' then (c as int + 32) as char else c
  }

  function ToLower(s: string): (r: string)
    ensures |r| == |s|
    ensures forall i :: 0 <= i < |s| ==> r[i] == LowerChar(s[i])
  {
    if s == [] then [] else [LowerChar(s[0])] + ToLower(s[1..])
  }

  /** Resolves a relative index of `slice`: a negative one counts back from the end, and both are clamped to the string. */
  function RelativeIndex(i: int, len: nat): (r: nat)
    ensures r <= len
    ensures 0 <= i <= len ==> r == i
    ensures -(len as int) <= i < 0 ==> r == len + i
  {
    if i < 0 then (if len + i < 0 then 0 else len + i)
    else if i < len then i else len
  }

  /** `String.prototype.slice(start, end)`: the characters from the resolved start up to the resolved end, empty when they cross. */
  function Slice(s: string, start: int, end: int): (r: string)
    ensures |r| <= |s|
    ensures var from := RelativeIndex(start, |s|); var to := RelativeIndex(end, |s|);
      if from < to then r == s[from..to] else r == []
  {
    var from := RelativeIndex(start, |s|);
    var to := RelativeIndex(end, |s|);
    if from < to then s[from..to] else []
  }

  /** `slice(1, -1)` drops the first and the last character, and leaves nothing of a string shorter than three. */
  lemma SliceDropsEnds(s: string)
    ensures |s| <= 2 ==> Slice(s, 1, -1) == []
    ensures |s| >= 2 ==> Slice(s, 1, -1) == s[1..|s| - 1]
    ensures |s| >= 2 ==> s == [s[0]] + Slice(s, 1, -1) + [s[|s| - 1]]
  {
    if |s| >= 2 {
      assert s == [s[0]] + s[1..|s| - 1] + [s[|s| - 1]];
    }
  }
}
