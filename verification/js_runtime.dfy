/**
 * The slice of JavaScript's runtime semantics that the modelled TypeScript relies on:
 * dynamically typed values and plain objects, truthiness, own-property tests and reads,
 * template-literal interpolation, `Array.prototype.join` (with `split`, its inverse on
 * separator-free fields) and lodash's `upperFirst`.
 */
module JsRuntime {

  /**
   * A JavaScript value, restricted to the kinds that occur in the modelled code.
   * Numbers never occur there and are not modelled.
   */
  datatype JsValue =
    | Undefined
    | Null
    | Bool(b: bool)
    | Str(s: string)
    | Arr(items: seq<JsValue>)
    | Obj(props: Props)

  /** The own enumerable properties of a plain object (property order is not modelled). */
  type Props = map<string, JsValue>

  /** `!!v`: the falsy values are undefined, null, false and the empty string. */
  predicate Truthy(v: JsValue)
  {
    match v
    case Undefined => false
    case Null => false
    case Bool(b) => b
    case Str(s) => s != ""
    case _ => true
  }

  /**
   * `v.hasOwnProperty(key)` for a key that is neither an array index nor "length",
   * the only kind of key this model asks about: only plain objects have such a property.
   */
  predicate HasOwnProperty(v: JsValue, key: string)
  {
    v.Obj? && key in v.props
  }

  /** `v[key]` for such a key: a missing property reads as undefined. */
  function Get(v: JsValue, key: string): (r: JsValue)
    ensures HasOwnProperty(v, key) ==> r == v.props[key]
    ensures !HasOwnProperty(v, key) ==> r == Undefined
  {
    if HasOwnProperty(v, key) then v.props[key] else Undefined
  }

  /** `${v}`: the text a template literal interpolates for `v`. */
  function TemplateText(v: JsValue): (r: string)
    ensures v.Str? ==> r == v.s
    ensures v.Undefined? ==> r == "undefined"
    decreases v, 1
  {
    match v
    case Undefined => "undefined"
    case Null => "null"
    case Bool(b) => if b then "true" else "false"
    case Str(s) => s
    case Arr(items) => ArrayText(v, items)
    case Obj(_) => "[object Object]"
  }

  /** `String(items)`: the elements joined with ",", with undefined and null read as "". */
  function ArrayText(ghost whole: JsValue, items: seq<JsValue>): string
    requires forall x :: x in items ==> x < whole
    decreases whole, 0, |items|
  {
    if items == [] then ""
    else
      assert items[0] in items;
      assert forall x :: x in items[1..] ==> x in items;
      var head := if items[0].Undefined? || items[0].Null? then "" else TemplateText(items[0]);
      if |items| == 1 then head else head + "," + ArrayText(whole, items[1..])
  }

  /** `xs.join(sep)` over an array of strings, for a one-character separator. */
  function Join(xs: seq<string>, sep: char): string
  {
    if xs == [] then ""
    else if |xs| == 1 then xs[0]
    else xs[0] + [sep] + Join(xs[1..], sep)
  }

  /** `s.split(sep)` for a one-character separator: the fields between separators, in order. */
  function Split(s: string, sep: char): (r: seq<string>)
    ensures |r| >= 1
  {
    if s == [] then [""]
    else
      var rest := Split(s[1..], sep);
      if s[0] == sep then [""] + rest else [[s[0]] + rest[0]] + rest[1..]
  }

  /** A string without the separator splits into itself. */
  lemma {:induction false} SplitWithoutSeparator(s: string, sep: char)
    requires sep !in s
    ensures Split(s, sep) == [s]
  {
    if s != [] {
      SplitWithoutSeparator(s[1..], sep);
      assert [s[0]] + s[1..] == s;
    }
  }

  /** A separator-free field followed by the separator splits off as the first field. */
  lemma {:induction false} SplitFirstField(a: string, sep: char, b: string)
    requires sep !in a
    ensures Split(a + [sep] + b, sep) == [a] + Split(b, sep)
  {
    var s := a + [sep] + b;
    if a == [] {
      assert s[1..] == b;
    } else {
      assert s[1..] == a[1..] + [sep] + b;
      SplitFirstField(a[1..], sep, b);
      assert [a[0]] + a[1..] == a;
    }
  }

  /**
   * Joining a non-empty list of fields that do not contain the separator loses nothing:
   * splitting the result gives back the same fields, in the same order.
   */
  lemma {:induction false} SplitJoin(xs: seq<string>, sep: char)
    requires xs != []
    requires forall i :: 0 <= i < |xs| ==> sep !in xs[i]
    ensures Split(Join(xs, sep), sep) == xs
  {
    if |xs| == 1 {
      SplitWithoutSeparator(xs[0], sep);
    } else {
      SplitJoin(xs[1..], sep);
      SplitFirstField(xs[0], sep, Join(xs[1..], sep));
      assert [xs[0]] + xs[1..] == xs;
    }
  }

  /** ASCII upper-casing of one character; every other character is left as it is. */
  function UpperAscii(c: char): (r: char)
    ensures 'a' <= c <= 'z' ==> 'A' <= r <= 'Z' && r as int == c as int - 32
    ensures !('a' <= c <= 'z') ==> r == c
  {
    if 'a' <= c <= 'z' then (c as int - 32) as char else c
  }

  /**
   * lodash `upperFirst`: the first character upper-cased, the rest unchanged
   * (case mapping over ASCII only).
   */
  function UpperFirst(s: string): (r: string)
    ensures |r| == |s|
    ensures s != [] ==> r[0] == UpperAscii(s[0]) && r[1..] == s[1..]
  {
    if s == [] then [] else [UpperAscii(s[0])] + s[1..]
  }

  /** Upper-casing the first character twice is the same as doing it once. */
  lemma UpperFirstIdempotent(s: string)
    ensures UpperFirst(UpperFirst(s)) == UpperFirst(s)
  {
  }
}
