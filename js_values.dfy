/** The few pieces of JavaScript semantics the adapter relies on: untyped values with
    truthiness, the `||` default on strings, `String.prototype.includes` and
    `s.split("/").pop()`. */
module JsValues {
  import opened Wrappers

  /** A JavaScript value as it can arrive in a tool's argument bag. Numbers are modelled
      as reals; NaN is its own case because it is the one falsy number besides zero. */
  datatype JsValue =
    | Undef
    | Null
    | Bool(b: bool)
    | Num(n: real)
    | NaN
    | Str(s: string)
    | Obj(fields: map<string, JsValue>)

  /** JavaScript truthiness: `undefined`, `null`, `false`, `0`, `NaN` and `""` are falsy;
      every other value, every object included, is truthy. */
  predicate Truthy(v: JsValue)
    ensures Truthy(v) <==>
      !(v == Undef || v == Null || v == Bool(false) || v == Num(0.0) || v == NaN || v == Str(""))
  {
    match v
    case Undef => false
    case Null => false
    case Bool(b) => b
    case Num(n) => n != 0.0
    case NaN => false
    case Str(s) => s != ""
    case Obj(_) => true
  }

  /** `x || fallback` for a string `x`: the empty string is the only falsy string. */
  function OrElse(x: string, fallback: string): (r: string)
    ensures x != "" ==> r == x
    ensures x == "" ==> r == fallback
  {
    if x != "" then x else fallback
  }

  /** `sub` occurs in `s` starting at offset `i`. */
  predicate OccursAt(s: string, sub: string, i: int) {
    0 <= i <= |s| - |sub| && s[i..i + |sub|] == sub
  }

  /** `s.includes(sub)`: `sub` occurs in `s` at some offset. */
  predicate Contains(s: string, sub: string)
    ensures Contains(s, sub) ==> |sub| <= |s|
    ensures sub == [] ==> Contains(s, sub)
  {
    assert OccursAt(s, [], 0);
    exists i | 0 <= i <= |s| - |sub| :: OccursAt(s, sub, i)
  }

  /** `s.split("/").pop()`: the text after the last slash, or all of `s` when it has none. */
  function LastSegment(s: string): (r: string)
    ensures '/' !in r
    ensures |r| <= |s| && r == s[|s| - |r|..]
    ensures |r| < |s| ==> s[|s| - |r| - 1] == '/'
  {
    if s == [] then []
    else if s[|s| - 1] == '/' then []
    else
      var init := s[..|s| - 1];
      var last := LastSegment(init);
      assert init[|init| - |last|..] + [s[|s| - 1]] == s[|s| - |last| - 1..];
      assert |last| < |init| ==> init[|init| - |last| - 1] == s[|s| - |last| - 2];
      last + [s[|s| - 1]]
  }

  /** The three properties of LastSegment's contract leave no other choice: any suffix
      without a slash that is the whole string or follows a slash is the last segment. */
  lemma {:induction false} LastSegmentUnique(s: string, t: string)
    requires '/' !in t
    requires |t| <= |s| && t == s[|s| - |t|..]
    requires |t| < |s| ==> s[|s| - |t| - 1] == '/'
    ensures t == LastSegment(s)
  {
  }

  /** `s.find(p)`, as an index: the first position whose element satisfies `p`, or None when
      no element does. */
  function FindIndex<T>(s: seq<T>, p: T -> bool): (r: Option<nat>)
    ensures r.Some? ==> r.value < |s| && p(s[r.value])
    ensures r.Some? ==> forall j :: 0 <= j < r.value ==> !p(s[j])
    ensures r.None? <==> forall j :: 0 <= j < |s| ==> !p(s[j])
  {
    if s == [] then None
    else if p(s[0]) then Some(0)
    else match FindIndex(s[1..], p)
      case None => None
      case Some(i) => Some(i + 1)
  }
}
