/**
 * The few JavaScript value semantics the handlers rely on: how a request
 * field is interpolated into a template literal, when it is truthy, what
 * `x || d` yields and what `x === "lit"` decides.
 */
module Js {

  datatype Option<+T> = None | Some(value: T)

  /** A request-body field as the handlers see it: absent, JSON null, or a string. */
  datatype JsValue = Undefined | Null | Str(text: string)

  /** `${v}` inside a template literal. */
  function Interp(v: JsValue): string
  {
    match v
    case Undefined => "undefined"
    case Null => "null"
    case Str(s) => s
  }

  /** JavaScript truthiness: only a non-empty string is truthy. */
  predicate Truthy(v: JsValue)
  {
    v.Str? && v.text != ""
  }

  /** `v || d` where `d` is a string literal. */
  function OrElse(v: JsValue, d: string): (r: string)
    ensures Truthy(v) ==> r == v.text
    ensures !Truthy(v) ==> r == d
  {
    if Truthy(v) then v.text else d
  }

  /** `v === lit` for a string literal `lit`: only a string with exactly those characters matches. */
  predicate StrictEquals(v: JsValue, lit: string)
  {
    v == Str(lit)
  }

  /** An absent field, a null field and an empty string all fall back to the default. */
  lemma FalsyAlike(d: string)
    ensures OrElse(Undefined, d) == OrElse(Null, d) == OrElse(Str(""), d) == d
  {
  }

  /** `ss.join("")`: the strings one after the other. */
  function Join(ss: seq<string>): string
  {
    if ss == [] then "" else ss[0] + Join(ss[1..])
  }

  lemma {:induction false} JoinAppend(a: seq<string>, b: seq<string>)
    ensures Join(a + b) == Join(a) + Join(b)
  {
    if a == [] {
      assert a + b == b;
    } else {
      assert (a + b)[0] == a[0];
      assert (a + b)[1..] == a[1..] + b;
      JoinAppend(a[1..], b);
    }
  }

  /** Element `i` is joined in between the elements before it and those after it. */
  lemma JoinAt(ss: seq<string>, i: nat)
    requires i < |ss|
    ensures Join(ss) == Join(ss[..i]) + ss[i] + Join(ss[i + 1..])
  {
    var rest := ss[i..];
    assert ss == ss[..i] + rest;
    JoinAppend(ss[..i], rest);
    assert rest[0] == ss[i] && rest[1..] == ss[i + 1..];
  }
}
