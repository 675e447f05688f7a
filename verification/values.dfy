/** JavaScript values as the handlers see them (request bodies, route
    parameters, token payloads) and the coercions the handlers apply to them:
    truthiness, property reads and `Number(...)`. */
module Values {

  datatype Option<+T> = None | Some(value: T)

  /** A JavaScript number. Only integral numbers are modelled; NaN is kept
      because the handlers test for it. */
  datatype Number = NaN | Int(i: int)

  datatype Value =
    | Undefined
    | Null
    | Bool(b: bool)
    | Num(n: Number)
    | Str(s: string)
    | Arr(elems: seq<Value>)
    | Obj(props: map<string, Value>)

  /** A value that is never `undefined`: what `parseFloat(...)` or
      `new Date(...)` gives, which are opaque here. */
  type Present = v: Value | v != Undefined witness Null

  /** A parsed JSON request body. */
  type Body = map<string, Value>

  /** Property read `o.k`: a missing property reads as undefined. */
  function Get(o: map<string, Value>, k: string): Value
  {
    if k in o then o[k] else Undefined
  }

  /** JavaScript truthiness, as used by `if (x)` and `!x`. */
  predicate Truthy(v: Value)
  {
    match v
    case Undefined => false
    case Null => false
    case Bool(b) => b
    case Num(n) => n != NaN && n != Int(0)
    case Str(s) => s != ""
    case Arr(_) => true
    case Obj(_) => true
  }

  predicate IsDigit(c: char)
  {
    '0' <= c <= '9'
  }

  predicate AllDigits(s: string)
  {
    forall i :: 0 <= i < |s| ==> IsDigit(s[i])
  }

  function DigitValue(c: char): nat
    requires IsDigit(c)
  {
    (c as int) - ('0' as int)
  }

  function DigitChar(d: nat): char
    requires d < 10
  {
    (('0' as int) + d) as char
  }

  /** The value of a string of decimal digits, most significant first. */
  function DigitsValue(s: string): nat
    requires AllDigits(s)
    decreases |s|
  {
    if s == [] then 0 else DigitsValue(s[..|s| - 1]) * 10 + DigitValue(s[|s| - 1])
  }

  /** `Number(s)` for a string: the empty string is 0, an optionally signed
      run of decimal digits is its value, anything else is NaN. */
  function StrToNumber(s: string): Number
  {
    if s == "" then Int(0)
    else if AllDigits(s) then Int(DigitsValue(s))
    else if |s| > 1 && s[0] == '-' && AllDigits(s[1..]) then Int(-(DigitsValue(s[1..]) as int))
    else if |s| > 1 && s[0] == '+' && AllDigits(s[1..]) then Int(DigitsValue(s[1..]))
    else NaN
  }

  /** The decimal rendering of a natural number, `String(n)`. */
  function NatToDigits(n: nat): string
  {
    if n < 10 then [DigitChar(n)] else NatToDigits(n / 10) + [DigitChar(n % 10)]
  }

  /** The decimal rendering of an integer, `String(n)`. */
  function IntToStr(n: int): string
  {
    if n < 0 then "-" + NatToDigits(-n) else NatToDigits(n)
  }

  lemma {:induction false} NatToDigitsValue(n: nat)
    ensures |NatToDigits(n)| > 0 && AllDigits(NatToDigits(n))
    ensures DigitsValue(NatToDigits(n)) == n
  {
    var s := NatToDigits(n);
    if n >= 10 {
      NatToDigitsValue(n / 10);
      assert s[..|s| - 1] == NatToDigits(n / 10);
    }
  }

  /** `Number(String(n)) === n`: a numeric id rendered into a route
      parameter comes back unchanged. */
  lemma StrToNumberRoundTrip(n: int)
    ensures StrToNumber(IntToStr(n)) == Int(n)
  {
    if n < 0 {
      NatToDigitsValue(-n);
      var s := IntToStr(n);
      assert s[1..] == NatToDigits(-n);
      assert !IsDigit(s[0]);
    } else {
      NatToDigitsValue(n);
    }
  }

  /** JavaScript `Number(v)`. */
  function ToNumber(v: Value): Number
  {
    match v
    case Undefined => NaN
    case Null => Int(0)
    case Bool(b) => Int(if b then 1 else 0)
    case Num(n) => n
    case Str(s) => StrToNumber(s)
    case Arr(xs) =>
      // An array converts through its comma-joined string form.
      if |xs| == 0 then Int(0)
      else if |xs| > 1 then NaN
      else (match xs[0]
            case Undefined => Int(0)
            case Null => Int(0)
            case Bool(_) => NaN
            case _ => ToNumber(xs[0]))
    case Obj(_) => NaN
  }

  /** What one entry contributes to the normalised list: its number, or
      nothing when it converts to NaN. */
  function IdOf(v: Value): seq<int>
  {
    match ToNumber(v)
    case NaN => []
    case Int(i) => [i]
  }

  /** `xs.map(Number).filter((id) => !isNaN(id))`. */
  function IdsOf(xs: seq<Value>): seq<int>
  {
    if xs == [] then [] else IdOf(xs[0]) + IdsOf(xs[1..])
  }

  /** The normalisation keeps the order of its input: it distributes over
      concatenation. */
  lemma {:induction false} IdsOfAppend(a: seq<Value>, b: seq<Value>)
    ensures IdsOf(a + b) == IdsOf(a) + IdsOf(b)
  {
    if a == [] {
      assert a + b == b;
    } else {
      assert (a + b)[0] == a[0];
      assert (a + b)[1..] == a[1..] + b;
      IdsOfAppend(a[1..], b);
    }
  }

  /** An id survives the normalisation exactly when some entry converts to it. */
  lemma {:induction false} IdsOfMembership(xs: seq<Value>, id: int)
    ensures id in IdsOf(xs) <==> exists k :: 0 <= k < |xs| && ToNumber(xs[k]) == Int(id)
  {
    if xs != [] {
      IdsOfMembership(xs[1..], id);
      if exists k :: 0 <= k < |xs| && ToNumber(xs[k]) == Int(id) {
        var k :| 0 <= k < |xs| && ToNumber(xs[k]) == Int(id);
        if k > 0 {
          assert ToNumber(xs[1..][k - 1]) == Int(id);
        }
      }
      if exists k :: 0 <= k < |xs[1..]| && ToNumber(xs[1..][k]) == Int(id) {
        var k :| 0 <= k < |xs[1..]| && ToNumber(xs[1..][k]) == Int(id);
        assert ToNumber(xs[k + 1]) == Int(id);
      }
    }
  }

  /** When every entry converts to a number nothing is dropped and each id
      is the conversion of the entry at the same position. */
  lemma {:induction false} IdsOfAllNumbers(xs: seq<Value>)
    requires forall k :: 0 <= k < |xs| ==> ToNumber(xs[k]).Int?
    ensures |IdsOf(xs)| == |xs|
    ensures forall k :: 0 <= k < |xs| ==> IdsOf(xs)[k] == ToNumber(xs[k]).i
  {
    if xs != [] {
      assert forall k :: 0 <= k < |xs[1..]| ==> ToNumber(xs[1..][k]) == ToNumber(xs[k + 1]);
      IdsOfAllNumbers(xs[1..]);
    }
  }

  /** The normalised list is empty exactly when no entry converts to a number. */
  lemma IdsOfEmpty(xs: seq<Value>)
    ensures IdsOf(xs) == [] <==> forall k :: 0 <= k < |xs| ==> ToNumber(xs[k]) == NaN
  {
    if IdsOf(xs) == [] {
      forall k | 0 <= k < |xs| ensures ToNumber(xs[k]) == NaN {
        if ToNumber(xs[k]).Int? {
          IdsOfMembership(xs, ToNumber(xs[k]).i);
        }
      }
    } else {
      IdsOfMembership(xs, IdsOf(xs)[0]);
    }
  }
}
