/** The conventional optional value. */
module Options {
  datatype Option<T> = None | Some(value: T)
}

/**
 * The JavaScript values the screens keep in state and write to storage, and
 * the few language rules the handlers rely on: truthiness, `||`, `??`, `===`,
 * the `+` operator, template-literal conversion and `parseInt`.
 */
module Values {
  import opened Text
  import opened Options

  /** A JavaScript value. Numbers are integers; NaN is kept apart. */
  datatype Value =
    | Undefined
    | Null
    | Bool(b: bool)
    | Num(n: int)
    | NaN
    | Str(s: string)
    | Arr(items: seq<Value>)
    | Obj(fields: map<string, Value>)

  /** A plain object: its own enumerable properties. A missing key reads as `undefined`. */
  type Object = map<string, Value>

  /**
   * The properties every plain object inherits from `Object.prototype`.
   * Reading one of them from an object without an own property of that name
   * gives a built-in function (for `__proto__`, the prototype object): a
   * truthy value that is not `undefined`.
   */
  const INHERITED_NAMES: set<string> := {
    "constructor", "hasOwnProperty", "isPrototypeOf", "propertyIsEnumerable",
    "toLocaleString", "toString", "valueOf", "__proto__",
    "__defineGetter__", "__defineSetter__", "__lookupGetter__", "__lookupSetter__"}

  /** `o[key]`. */
  function Get(o: Object, key: string): Value {
    if key in o then o[key] else Undefined
  }

  /** `v.key` for any value: only objects carry properties here. */
  function Prop(v: Value, key: string): Value {
    if v.Obj? then Get(v.fields, key) else Undefined
  }

  /** JavaScript truthiness. */
  predicate Truthy(v: Value) {
    match v
    case Undefined => false
    case Null => false
    case Bool(b) => b
    case Num(n) => n != 0
    case NaN => false
    case Str(s) => s != ""
    case Arr(_) => true
    case Obj(_) => true
  }

  /** `a || b`. */
  function Or(a: Value, b: Value): Value {
    if Truthy(a) then a else b
  }

  /** `null` or `undefined`, the values `??` replaces. */
  predicate Nullish(v: Value) {
    v == Undefined || v == Null
  }

  /** `a === b` on primitives; NaN equals nothing, not even itself. */
  predicate StrictEq(a: Value, b: Value) {
    a != NaN && b != NaN && a == b
  }

  /** `typeof v === "object"` together with `v &&`: an object or an array. */
  predicate IsObjectLike(v: Value) {
    v.Obj? || v.Arr?
  }

  function DigitChar(d: nat): char
    requires d < 10
  {
    "0123456789"[d]
  }

  /** The decimal digits of a natural number, most significant first. */
  function Decimal(n: nat): (r: string)
    ensures r != []
    ensures forall i :: 0 <= i < |r| ==> '0' <= r[i] <= '9'
    ensures r[0] == '0' ==> n == 0
  {
    if n < 10 then [DigitChar(n)] else Decimal(n / 10) + [DigitChar(n % 10)]
  }

  /** `String(n)` for an integer. */
  function NumberText(n: int): string {
    if n < 0 then "-" + Decimal(-n) else Decimal(n)
  }

  /** `String(v)`, which template literals and `+` on strings use. */
  function ToStr(v: Value): string
    decreases v
  {
    match v
    case Undefined => "undefined"
    case Null => "null"
    case Bool(b) => if b then "true" else "false"
    case Num(n) => NumberText(n)
    case NaN => "NaN"
    case Str(s) => s
    case Arr(items) => JoinItems(v, items)
    case Obj(_) => "[object Object]"
  }

  /** `items.join(",")`, where `null` and `undefined` elements become empty. */
  function JoinItems(whole: Value, items: seq<Value>): string
    requires whole.Arr? && |items| <= |whole.items|
    requires items == whole.items[|whole.items| - |items|..]
    decreases whole, |items|
  {
    if items == [] then ""
    else
      var first := if Nullish(items[0]) then "" else ToStr(items[0]);
      if |items| == 1 then first else first + "," + JoinItems(whole, items[1..])
  }

  /** The number `+` makes of a value that is not a string or object (`Number(v)`). */
  function ToNumber(v: Value): Option<int>
    requires !v.Str? && !v.Arr? && !v.Obj?
  {
    match v
    case Undefined => None
    case NaN => None
    case Null => Some(0)
    case Bool(b) => Some(if b then 1 else 0)
    case Num(n) => Some(n)
  }

  /**
   * `a + b`: string concatenation when either side is a string, an array or
   * an object; numeric addition otherwise, NaN when a side is NaN or undefined.
   */
  function Plus(a: Value, b: Value): (r: Value)
    ensures (a.Num? && b.Num?) ==> r == Num(a.n + b.n)
    ensures (a.Str? || b.Str?) ==> r.Str?
  {
    if a.Str? || a.Arr? || a.Obj? || b.Str? || b.Arr? || b.Obj? then
      Str(ToStr(a) + ToStr(b))
    else
      match (ToNumber(a), ToNumber(b))
      case (Some(x), Some(y)) => Num(x + y)
      case _ => NaN
  }

  /** `k * v` for an integer `k`: NaN unless `v` converts to a number. */
  function Times(k: int, v: Value): (r: Value)
    ensures v.Num? ==> r == Num(k * v.n)
  {
    if v.Str? || v.Arr? || v.Obj? then NaN
    else
      match ToNumber(v)
      case Some(x) => Num(k * x)
      case None => NaN
  }

  function DigitValue(c: char, radix: nat): Option<nat> {
    var d :=
      if '0' <= c <= '9' then c as int - '0' as int
      else if 'a' <= c <= 'z' then c as int - 'a' as int + 10
      else if 'A' <= c <= 'Z' then c as int - 'A' as int + 10
      else 99;
    if d < radix then Some(d) else None
  }

  /** The length of the longest prefix of `s` made of digits of `radix`. */
  function DigitRun(s: string, radix: nat): (k: nat)
    ensures k <= |s|
    ensures forall i :: 0 <= i < k ==> DigitValue(s[i], radix).Some?
    ensures k < |s| ==> DigitValue(s[k], radix).None?
  {
    if s != [] && DigitValue(s[0], radix).Some? then 1 + DigitRun(s[1..], radix) else 0
  }

  /** Appends digit `d` to the value `v` in base `radix`. */
  function Shift(v: nat, radix: nat, d: nat): nat {
    v * radix + d
  }

  /** The value of a string of digits of `radix`, most significant first. */
  function DigitsValue(s: string, radix: nat): nat
    requires forall i :: 0 <= i < |s| ==> DigitValue(s[i], radix).Some?
  {
    if s == [] then 0
    else Shift(DigitsValue(s[..|s| - 1], radix), radix, DigitValue(s[|s| - 1], radix).value)
  }

  /** The magnitude `parseInt` reads after the sign: a `0x` prefix selects base 16. */
  function UnsignedPrefix(s: string): Option<nat> {
    var hex := |s| >= 2 && s[0] == '0' && (s[1] == 'x' || s[1] == 'X');
    var radix := if hex then 16 else 10;
    var body := if hex then s[2..] else s;
    var k := DigitRun(body, radix);
    if k == 0 then None else Some(DigitsValue(body[..k], radix))
  }

  /** `parseInt(s)` with no radix: leading white space, an optional sign, then digits; NaN when there are none. */
  function ParseInt(s: string): Value {
    var t := TrimStart(s);
    if t != [] && (t[0] == '-' || t[0] == '+') then Signed(UnsignedPrefix(t[1..]), t[0] == '-')
    else Signed(UnsignedPrefix(t), false)
  }

  function Signed(m: Option<nat>, negative: bool): Value {
    match m
    case None => NaN
    case Some(k) => Num(if negative then -(k as int) else k)
  }

  lemma {:induction false} DecimalValue(n: nat)
    ensures DigitRun(Decimal(n), 10) == |Decimal(n)|
    ensures DigitsValue(Decimal(n), 10) == n
  {
    DecimalDigits(n);
    DigitRunAll(Decimal(n), 10);
  }

  /** The decimal digits of `n` are read back as `n`. */
  lemma {:induction false} DecimalDigits(n: nat)
    ensures DigitsValue(Decimal(n), 10) == n
  {
    var d := Decimal(n);
    if n >= 10 {
      DecimalDigits(n / 10);
      assert d == Decimal(n / 10) + [DigitChar(n % 10)];
      assert d[..|d| - 1] == Decimal(n / 10);
      DigitCharValue(n % 10);
      assert Shift(n / 10, 10, n % 10) == n;
    } else {
      DigitCharValue(n);
      assert d[..0] == [];
    }
  }

  lemma DigitCharValue(d: nat)
    requires d < 10
    ensures DigitValue(DigitChar(d), 10) == Some(d)
  {
  }

  lemma {:induction false} DigitRunAll(s: string, radix: nat)
    requires forall i :: 0 <= i < |s| ==> DigitValue(s[i], radix).Some?
    ensures DigitRun(s, radix) == |s|
    decreases |s|
  {
    if s != [] {
      DigitRunAll(s[1..], radix);
    }
  }

  lemma UnsignedPrefixDecimal(m: nat)
    ensures UnsignedPrefix(Decimal(m)) == Some(m)
  {
    var d := Decimal(m);
    DecimalValue(m);
    assert d[..|d|] == d;
  }

  /** `parseInt` reads back every integer that `String` writes: the counts text round-trips. */
  lemma ParseIntNumberText(n: int)
    ensures ParseInt(NumberText(n)) == Num(n)
  {
    if n < 0 {
      ParseIntNegative(n);
    } else {
      ParseIntDecimal(n);
    }
  }

  lemma ParseIntDecimal(n: int)
    requires n >= 0
    ensures ParseInt(NumberText(n)) == Num(n)
  {
    var d := Decimal(n);
    assert NumberText(n) == d;
    UnsignedPrefixDecimal(n);
    assert !IsSpace(d[0]) && d[0] != '-' && d[0] != '+';
    assert TrimStart(d) == d;
  }

  lemma ParseIntNegative(n: int)
    requires n < 0
    ensures ParseInt(NumberText(n)) == Num(n)
  {
    var m: nat := -n;
    var d := Decimal(m);
    var t := "-" + d;
    assert NumberText(n) == t;
    ParseIntMinus(t);
    assert t[1..] == d;
    UnsignedPrefixDecimal(m);
  }

  /** A text that starts with `-` is read as the negated magnitude after it. */
  lemma ParseIntMinus(t: string)
    requires t != [] && t[0] == '-'
    ensures ParseInt(t) == Signed(UnsignedPrefix(t[1..]), true)
  {
    assert !IsSpace(t[0]);
    assert TrimStart(t) == t;
  }

  /**
   * `Number(s)` for a text, as far as an integer holds it: white space around
   * the text is ignored, a blank text is 0, and an optional sign followed by
   * decimal digits is read in base 10; any other text is NaN (`None`).
   */
  function StringNumber(s: string): (r: Option<int>)
    ensures IsBlank(s) ==> r == Some(0)
  {
    var t := Trim(s);
    if t == [] then Some(0) else SignedDigits(t)
  }

  /** A trimmed, non-empty text read as an optional sign followed by decimal digits. */
  function SignedDigits(t: string): Option<int>
    requires t != []
  {
    var body := if t[0] == '-' || t[0] == '+' then t[1..] else t;
    if body != [] && DigitRun(body, 10) == |body| then
      var m: int := DigitsValue(body, 10);
      Some(if t[0] == '-' then -m else m)
    else None
  }

  /** A text that neither starts nor ends with white space is its own trim. */
  lemma TrimUnchanged(s: string)
    requires s != [] && !IsSpace(s[0]) && !IsSpace(s[|s| - 1])
    ensures Trim(s) == s
  {
    assert TrimStart(s) == s;
  }

  /** `Number` reads back every integer that `String` writes. */
  lemma StringNumberText(n: int)
    ensures StringNumber(NumberText(n)) == Some(n)
  {
    if n < 0 {
      StringNumberNegative(n);
    } else {
      StringNumberDecimal(n);
    }
  }

  lemma StringNumberDecimal(n: int)
    requires n >= 0
    ensures StringNumber(NumberText(n)) == Some(n)
  {
    var d := Decimal(n);
    assert NumberText(n) == d;
    DecimalValue(n);
    DigitNotSpace(d[0]);
    DigitNotSpace(d[|d| - 1]);
    TrimUnchanged(d);
    SignedDigitsPlain(d);
  }

  lemma StringNumberNegative(n: int)
    requires n < 0
    ensures StringNumber(NumberText(n)) == Some(n)
  {
    var m: nat := -n;
    var d := Decimal(m);
    var t := "-" + d;
    assert NumberText(n) == t;
    DecimalValue(m);
    DigitNotSpace(d[|d| - 1]);
    assert t[0] == '-' && t[|t| - 1] == d[|d| - 1];
    assert !IsSpace('-');
    TrimUnchanged(t);
    SignedDigitsMinus(d);
  }

  lemma DigitNotSpace(c: char)
    requires '0' <= c <= '9'
    ensures !IsSpace(c)
  {
  }

  /** Decimal digits with no sign read as their value. */
  lemma SignedDigitsPlain(d: string)
    requires d != [] && DigitRun(d, 10) == |d|
    ensures SignedDigits(d) == Some(DigitsValue(d, 10) as int)
  {
    assert DigitValue(d[0], 10).Some?;
    assert d[0] != '-' && d[0] != '+';
  }

  /** A minus sign followed by decimal digits reads as the negated value. */
  lemma SignedDigitsMinus(d: string)
    requires d != [] && DigitRun(d, 10) == |d|
    ensures SignedDigits("-" + d) == Some(-(DigitsValue(d, 10) as int))
  {
    var t := "-" + d;
    assert t[0] == '-';
    var body := t[1..];
    assert body == d;
    assert body != [] && DigitRun(body, 10) == |body|;
    var m: int := DigitsValue(body, 10);
    assert SignedDigits(t) == Some(-m);
  }

  /** A one-element array reads as the text of its element. */
  lemma JoinSingle(v: Value)
    requires !Nullish(v)
    ensures ToStr(Arr([v])) == ToStr(v)
  {
    var w := Arr([v]);
    assert w.items[|w.items| - 1..] == [v];
  }
}
