/**
 * The JavaScript values the writer's options can hold, together with the
 * three pieces of JavaScript semantics the factory leans on: `typeof`,
 * truthiness, and the key/value pairs `Object.entries` (or an object
 * spread) yields.
 */
module JsValues {

  /**
   * A function value. The caller's own functions are known only by an
   * identity; the model never looks inside them. The other three are the
   * closures `nunjucksWriter` creates itself.
   */
  datatype Callable =
    | UserFn(id: nat)
      /** the default `advanced` option, `() => undefined` */
    | NoOpHook
      /** the built-in `markdown` filter, closed over a converter built with these options */
    | MarkdownFilter(converterOptions: map<string, Value>)
      /** the `renderer` callback handed to the file writer */
    | RenderCallback

  /** Numbers are integers here: the factory only ever asks for their `typeof` and truthiness. */
  datatype Value =
    | Undef
    | Null
    | Bool(b: bool)
    | Num(n: int)
    | Str(s: string)
    | Arr(elems: seq<Value>)
    | Obj(fields: map<string, Value>)
    | Func(f: Callable)

  /** The string JavaScript's `typeof` operator yields. */
  function TypeOf(v: Value): (t: string)
    ensures t == "object" <==> v.Null? || v.Arr? || v.Obj?
    ensures t == "function" <==> v.Func?
    ensures t == "string" <==> v.Str?
  {
    match v
    case Undef => "undefined"
    case Null => "object"
    case Bool(_) => "boolean"
    case Num(_) => "number"
    case Str(_) => "string"
    case Arr(_) => "object"
    case Obj(_) => "object"
    case Func(_) => "function"
  }

  /** Truthiness as JavaScript defines it, with numbers as integers. */
  predicate Truthy(v: Value)
    ensures !Truthy(v) <==> v in {Undef, Null, Bool(false), Num(0), Str("")}
  {
    match v
    case Undef => false
    case Null => false
    case Bool(b) => b
    case Num(n) => n != 0
    case Str(s) => s != ""
    case _ => true
  }

  function Digit(d: nat): (c: char)
    requires d < 10
    ensures '0' <= c <= '9' && DigitValue(c) == d
  {
    ('0' as int + d) as char
  }

  function DigitValue(c: char): int
  {
    c as int - '0' as int
  }

  /** A non-empty string of decimal digits. */
  predicate IsNumeral(s: string)
  {
    |s| >= 1 && forall i :: 0 <= i < |s| ==> '0' <= s[i] <= '9'
  }

  /**
   * The number a string of decimal digits denotes, read left to right. An
   * independent reading of `IndexKey`'s result.
   */
  function NumeralValue(s: string): int
  {
    if |s| == 0 then 0 else 10 * NumeralValue(s[..|s| - 1]) + DigitValue(s[|s| - 1])
  }

  /**
   * The property key of array index `n`: its decimal numeral, as JavaScript
   * writes it, with no leading zero.
   */
  function IndexKey(n: nat): (s: string)
    ensures IsNumeral(s)
    ensures n == 0 ==> s == "0"
    ensures n >= 1 ==> s[0] != '0'
    ensures NumeralValue(s) == n
    decreases n
  {
    if n < 10 then [Digit(n)]
    else
      var prefix, last := IndexKey(n / 10), Digit(n % 10);
      assert (prefix + [last])[..|prefix|] == prefix;
      prefix + [last]
  }

  /** The keys of an array of length `n`. */
  function IndexKeys(n: nat): set<string>
  {
    set i | 0 <= i < n :: IndexKey(i)
  }

  /** Distinct indices have distinct keys, so an array's entries never collide. */
  lemma IndexKeyInjective(i: nat, j: nat)
    requires IndexKey(i) == IndexKey(j)
    ensures i == j
  {
    assert i == NumeralValue(IndexKey(i)) == NumeralValue(IndexKey(j)) == j;
  }

  lemma IndexKeysDistinct()
    ensures forall i: nat, j: nat {:trigger IndexKey(i), IndexKey(j)} :: IndexKey(i) == IndexKey(j) ==> i == j
  {
    forall i: nat, j: nat | IndexKey(i) == IndexKey(j)
      ensures i == j
    {
      IndexKeyInjective(i, j);
    }
  }

  /**
   * The own enumerable properties of an object or array, as `Object.entries`
   * or the spread `{...v}` sees them: an object's fields, or an array's
   * elements under their index keys.
   */
  function Entries(v: Value): (m: map<string, Value>)
    requires v.Obj? || v.Arr?
    ensures v.Obj? ==> m == v.fields
    ensures v.Arr? ==> m.Keys == IndexKeys(|v.elems|)
    ensures v.Arr? ==> forall i :: 0 <= i < |v.elems| ==> m[IndexKey(i)] == v.elems[i]
  {
    match v
    case Obj(fields) => fields
    case Arr(elems) =>
      IndexKeysDistinct();
      var m := map i | 0 <= i < |elems| :: IndexKey(i) := elems[i];
      assert forall i :: 0 <= i < |elems| ==> IndexKey(i) in m;
      assert m.Keys == IndexKeys(|elems|);
      m
  }
}
