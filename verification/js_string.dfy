/** The two JavaScript string behaviours the mint page relies on: the
    truthiness of an optional string and `String.prototype.indexOf`. */
module JsString {

  /** A value that may be `undefined` in JavaScript. */
  datatype Option<+T> = None | Some(value: T)

  /** JavaScript truthiness of a string that may be `undefined`:
      `undefined` and the empty string are falsy, every other string is truthy. */
  predicate Truthy(s: Option<string>)
  {
    s.Some? && s.value != ""
  }

  /** `p` occurs in `s` starting at index `i`. */
  predicate OccursAt(s: string, p: string, i: int)
  {
    0 <= i && i + |p| <= |s| && s[i..i + |p|] == p
  }

  /** `s` starts with `p`. */
  predicate StartsWith(s: string, p: string)
  {
    |p| <= |s| && s[..|p|] == p
  }

  /** `s.indexOf(p)`: the lowest index at which `p` occurs in `s`, or -1 when
      it occurs nowhere. An empty `p` occurs at index 0. */
  function IndexOf(s: string, p: string): (r: int)
    ensures -1 <= r <= |s|
    ensures r >= 0 ==> OccursAt(s, p, r)
    ensures r >= 0 ==> forall i :: 0 <= i < r ==> !OccursAt(s, p, i)
    ensures r == -1 ==> forall i :: 0 <= i <= |s| ==> !OccursAt(s, p, i)
    ensures r == 0 <==> StartsWith(s, p)
    decreases |s|
  {
    if |s| < |p| then -1
    else if s[..|p|] == p then 0
    else
      var k := IndexOf(s[1..], p);
      assert forall i :: 1 <= i <= |s| ==> (OccursAt(s, p, i) <==> OccursAt(s[1..], p, i - 1));
      if k < 0 then -1 else k + 1
  }
}
