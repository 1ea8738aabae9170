/**
 The JavaScript values the plugin inspects at run time, the `typeof` operator
 on them, thrown errors, and two small text utilities used to state facts about
 the messages and search expressions the plugin builds.
 */
module Js {

  /** A JavaScript value, as far as `typeof` and `=== null` can tell values apart.
      Numbers are integers in this model. */
  datatype Value =
    | Undefined
    | Null
    | Bool(b: bool)
    | Number(n: int)
    | Str(s: string)
    | Object(entries: seq<(string, Value)>)
    | Array(elements: seq<Value>)
    | Function

  /** The result of JavaScript's `typeof v`. */
  function TypeOf(v: Value): (t: string)
    ensures t == "string" <==> v.Str?
    ensures t == "object" <==> (v.Null? || v.Object? || v.Array?)
    ensures t == "undefined" <==> v.Undefined?
  {
    match v
    case Undefined => "undefined"
    case Null => "object"
    case Bool(_) => "boolean"
    case Number(_) => "number"
    case Str(_) => "string"
    case Object(_) => "object"
    case Array(_) => "object"
    case Function => "function"
  }

  /** An `Error` object; only its message is observable here. */
  datatype Error = Error(message: string)

  /** What a call does: it either returns a value or throws. */
  datatype Outcome<T> = Returned(value: T) | Threw(error: Error)

  datatype Option<T> = None | Some(value: T)

  /** `t` occurs in `s` as a contiguous piece. */
  predicate Contains(s: string, t: string)
    decreases |s|
  {
    |t| <= |s| && (s[..|t|] == t || (|s| > 0 && Contains(s[1..], t)))
  }

  /** Whatever is put around `t`, the result still contains `t`. */
  lemma {:induction false} ContainsInfix(pre: string, t: string, post: string)
    ensures Contains(pre + t + post, t)
  {
    var s := pre + t + post;
    if pre == [] {
      assert s[..|t|] == t;
    } else {
      assert s[1..] == pre[1..] + t + post;
      ContainsInfix(pre[1..], t, post);
    }
  }

  lemma ContainsPrefix(t: string, post: string)
    ensures Contains(t + post, t)
  {
    assert (t + post)[..|t|] == t;
  }

  /** Appending to a string keeps every piece it contains. */
  lemma {:induction false} ContainsExtend(s: string, t: string, u: string)
    requires Contains(s, t)
    ensures Contains(s + u, t)
  {
    if s[..|t|] == t {
      assert (s + u)[..|t|] == t;
    } else {
      assert (s + u)[1..] == s[1..] + u;
      ContainsExtend(s[1..], t, u);
    }
  }
}
