/**
  The JavaScript values, errors and string operations that the template
  runtime's code relies on: loose null checks, truthiness, the `String(...)`
  conversion used by template literals, and the few string searches it makes.
 */
module JsValues {

  datatype Option<+T> = None | Some(value: T)

  /** The fields a thrown error carries through the runtime. */
  datatype Snapshot = Snapshot(shortid: string, name: string, content: string)

  datatype JsError = JsError(
    message: string,
    property: Option<string>,  // 'content' or 'helpers' once tagged
    entity: Option<Snapshot>,  // which template or component produced it
    statusCode: Option<int>,
    weak: bool)

  /** A normal completion with a value, or a thrown error. */
  datatype Result<+T> = Ok(value: T) | Err(error: JsError)

  /** `new Error(message)` */
  function PlainError(message: string): JsError {
    JsError(message, None, None, None, false)
  }

  /** `reporter.createError(message, { statusCode, weak })` */
  function ReporterError(message: string, statusCode: int, weak: bool): JsError {
    JsError(message, None, None, Some(statusCode), weak)
  }

  /** How an awaited value ends: with a value (already passed through `String(...)`) or with a rejection. */
  datatype Settlement = Fulfilled(text: string) | Rejected(reason: JsError)

  /**
    A JavaScript value, as far as the runtime looks at it. Numbers are
    integers here; `Record` stands for every plain object (arrays included)
    and `Thenable` for any object whose `then` member is a function.
   */
  datatype Value =
    | Undefined
    | Null
    | Bool(b: bool)
    | Num(n: int)
    | Str(s: string)
    | Record(fields: map<string, Value>)
    | Thenable(settles: Settlement)

  /** `v == null` (loose equality) */
  predicate IsNullish(v: Value) {
    v.Undefined? || v.Null?
  }

  /** `typeof v.then === 'function'` for a value that is not nullish */
  predicate HasCallableThen(v: Value) {
    v.Thenable?
  }

  /** `!!v` */
  predicate Truthy(v: Value) {
    match v
    case Undefined => false
    case Null => false
    case Bool(b) => b
    case Num(n) => n != 0
    case Str(s) => s != ""
    case Record(_) => true
    case Thenable(_) => true
  }

  /** `typeof v === 'object'` (which holds for `null`, too) */
  predicate IsObjectTypeof(v: Value) {
    v.Null? || v.Record? || v.Thenable?
  }

  function DigitChar(d: nat): char
    requires d < 10
  {
    "0123456789"[d]
  }

  function NatToString(n: nat): (s: string)
    ensures |s| > 0
    decreases n
  {
    if n < 10 then [DigitChar(n)] else NatToString(n / 10) + [DigitChar(n % 10)]
  }

  /** `String(v)`, which is also what `${v}` produces */
  function Stringify(v: Value): string {
    match v
    case Undefined => "undefined"
    case Null => "null"
    case Bool(b) => if b then "true" else "false"
    case Num(n) => if n < 0 then "-" + NatToString(-n) else NatToString(n)
    case Str(s) => s
    case Record(_) => "[object Object]"
    case Thenable(_) => "[object Promise]"
  }

  predicate StartsWith(s: string, prefix: string) {
    |prefix| <= |s| && s[..|prefix|] == prefix
  }

  /** `s.includes(p)` */
  predicate Contains(s: string, p: string)
    decreases |s|
  {
    StartsWith(s, p) || (|s| > 0 && Contains(s[1..], p))
  }

  lemma {:induction false} ContainsAppend(a: string, b: string, p: string)
    requires Contains(b, p)
    ensures Contains(a + b, p)
  {
    if a != [] {
      assert (a + b)[1..] == a[1..] + b;
      ContainsAppend(a[1..], b, p);
    } else {
      assert a + b == b;
    }
  }

  function CountChar(s: string, c: char): nat
    decreases |s|
  {
    if s == [] then 0 else (if s[0] == c then 1 else 0) + CountChar(s[1..], c)
  }

  lemma {:induction false} CountCharAppend(a: string, b: string, c: char)
    ensures CountChar(a + b, c) == CountChar(a, c) + CountChar(b, c)
  {
    if a != [] {
      assert (a + b)[1..] == a[1..] + b;
      CountCharAppend(a[1..], b, c);
    } else {
      assert a + b == b;
    }
  }

  /** `s.lastIndexOf(c)`: the last position holding `c`, or -1 */
  function LastIndexOf(s: string, c: char): (i: int)
    ensures -1 <= i < |s|
    ensures i >= 0 ==> s[i] == c
    ensures forall j :: i < j < |s| ==> s[j] != c
    decreases |s|
  {
    if s == [] then -1
    else if s[|s| - 1] == c then |s| - 1
    else LastIndexOf(s[..|s| - 1], c)
  }
}
