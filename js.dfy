/**
 * The few pieces of JavaScript semantics the load balancer leans on: optional values,
 * truthiness of optional numbers and strings (`0` and `""` are falsy), the decimal text
 * of a number (`"" + 8080`), `Number(text)` restricted to decimal digits, and powers of two.
 */
module Js {

  datatype Option<+T> = None | Some(value: T)

  datatype Result<+T, +E> = Success(value: T) | Failure(error: E)

  /** A JavaScript value where the core only looks at its type and truthiness. */
  datatype Value = Undefined | Null | Bool(b: bool) | Num(n: int) | Str(s: string) | Obj

  predicate Truthy(v: Value)
  {
    match v
    case Undefined => false
    case Null => false
    case Bool(b) => b
    case Num(n) => n != 0
    case Str(s) => s != ""
    case Obj => true
  }

  /** An optional number is truthy when present and not 0 (`undefined` and `0` are falsy). */
  predicate NumTruthy(o: Option<int>)
  {
    o.Some? && o.value != 0
  }

  /** An optional string is truthy when present and not empty. */
  predicate StrTruthy(o: Option<string>)
  {
    o.Some? && o.value != ""
  }

  /** `a || b` on optional numbers. */
  function OrNum(a: Option<int>, b: Option<int>): Option<int>
  {
    if NumTruthy(a) then a else b
  }

  /** `a || b` on optional strings. */
  function OrStr(a: Option<string>, b: Option<string>): Option<string>
  {
    if StrTruthy(a) then a else b
  }

  /** `o || fallback` where the result is used as a number. */
  function NumOr(o: Option<int>, fallback: int): int
  {
    if NumTruthy(o) then o.value else fallback
  }

  function Min(a: int, b: int): int
  {
    if a <= b then a else b
  }

  function Max(a: int, b: int): int
  {
    if a >= b then a else b
  }

  function Pow2(k: nat): (p: nat)
    ensures p >= 1
  {
    if k == 0 then 1 else 2 * Pow2(k - 1)
  }

  predicate IsDigit(c: char)
  {
    '0' <= c <= '9'
  }

  predicate AllDigits(s: string)
  {
    forall i :: 0 <= i < |s| ==> IsDigit(s[i])
  }

  function DigitChar(d: nat): (c: char)
    requires d < 10
    ensures IsDigit(c)
  {
    ['0', '1', '2', '3', '4', '5', '6', '7', '8', '9'][d]
  }

  function DigitValue(c: char): (d: nat)
    requires IsDigit(c)
    ensures d < 10
  {
    c as int - '0' as int
  }

  /** The value of a string of decimal digits; the empty string is 0, as `Number("")` is. */
  function DecimalValue(s: string): nat
    requires AllDigits(s)
  {
    if s == [] then 0 else 10 * DecimalValue(s[..|s| - 1]) + DigitValue(s[|s| - 1])
  }

  /** The decimal text JavaScript gives a non-negative integer, as in `"" + n`. */
  function DecimalText(n: nat): (s: string)
    ensures s != [] && AllDigits(s)
  {
    if n < 10 then [DigitChar(n)] else DecimalText(n / 10) + [DigitChar(n % 10)]
  }

  /** `Number(text)` for the decimal texts the model accepts: digits only, otherwise NaN (None). */
  function ToNumber(s: string): Option<nat>
  {
    if AllDigits(s) then Some(DecimalValue(s)) else None
  }

  lemma {:induction false} DigitRoundTrip(d: nat)
    requires d < 10
    ensures DigitValue(DigitChar(d)) == d
  {
    var digits := ['0', '1', '2', '3', '4', '5', '6', '7', '8', '9'];
    assert DigitChar(d) == digits[d];
  }

  /** Reading back the decimal text of a number gives the number. */
  lemma {:induction false} DecimalRoundTrip(n: nat)
    ensures ToNumber(DecimalText(n)) == Some(n)
  {
    var s := DecimalText(n);
    if n < 10 {
      DigitRoundTrip(n);
      assert s[..|s| - 1] == [];
      assert DecimalValue(s) == 10 * DecimalValue([]) + DigitValue(s[0]);
    } else {
      DecimalRoundTrip(n / 10);
      DigitRoundTrip(n % 10);
      assert s[..|s| - 1] == DecimalText(n / 10);
    }
  }

  /** Decimal text never contains a colon, so it survives a split on ':'. */
  lemma DecimalTextHasNoColon(n: nat)
    ensures ':' !in DecimalText(n)
  {
  }

  /** `q.indexOf(x)`: the first index holding x, or -1. */
  function IndexOf<T(==)>(q: seq<T>, x: T): (i: int)
    ensures -1 <= i < |q|
    ensures i >= 0 ==> q[i] == x && forall j :: 0 <= j < i ==> q[j] != x
    ensures i == -1 <==> x !in q
  {
    if q == [] then -1
    else if q[0] == x then 0
    else
      var r := IndexOf(q[1..], x);
      if r == -1 then -1 else r + 1
  }

  /** `s.split(":")[0]`: the text before the first colon, all of s when it has none. */
  function Field0(s: string): (f: string)
    ensures ':' !in f
  {
    if s == [] || s[0] == ':' then [] else [s[0]] + Field0(s[1..])
  }

  /** The text after the first colon, None when s has no colon. */
  function AfterFirstColon(s: string): Option<string>
  {
    if s == [] then None
    else if s[0] == ':' then Some(s[1..])
    else AfterFirstColon(s[1..])
  }

  /** `s.split(":")[1]`: the text between the first and the second colon; None (`undefined`) when s has no colon. */
  function Field1(s: string): Option<string>
  {
    match AfterFirstColon(s)
    case None => None
    case Some(rest) => Some(Field0(rest))
  }

  lemma {:induction false} Field0OfJoin(a: string, rest: string)
    requires ':' !in a
    ensures Field0(a + rest) == a + Field0(rest)
  {
    if a != [] {
      assert (a + rest)[0] == a[0] && a[0] != ':';
      assert (a + rest)[1..] == a[1..] + rest;
      Field0OfJoin(a[1..], rest);
      calc {
        Field0(a + rest);
        [a[0]] + Field0((a + rest)[1..]);
        [a[0]] + (a[1..] + Field0(rest));
        { assert a == [a[0]] + a[1..]; }
        a + Field0(rest);
      }
    } else {
      assert a + rest == rest;
    }
  }

  lemma {:induction false} AfterFirstColonOfJoin(a: string, b: string)
    requires ':' !in a
    ensures AfterFirstColon(a + ":" + b) == Some(b)
  {
    if a == [] {
      assert a + ":" + b == [':'] + b;
    } else {
      assert (a + ":" + b)[1..] == a[1..] + ":" + b;
      AfterFirstColonOfJoin(a[1..], b);
    }
  }

  /** Splitting `a + ":" + b` on ':' gives back a, then the first field of b. */
  lemma SplitOfJoin(a: string, b: string)
    requires ':' !in a
    ensures Field0(a + ":" + b) == a
    ensures Field1(a + ":" + b) == Some(Field0(b))
  {
    Field0OfJoin(a, ":" + b);
    assert a + ":" + b == a + (":" + b);
    AfterFirstColonOfJoin(a, b);
  }

  lemma Field0OfColonFree(s: string)
    requires ':' !in s
    ensures Field0(s) == s
  {
    Field0OfJoin(s, []);
    assert s + [] == s;
  }

  predicate Increasing(ks: seq<int>)
  {
    forall i, j :: 0 <= i < j < |ks| ==> ks[i] < ks[j]
  }

  /** Extending a prefix of s by one element. */
  lemma PrefixStep<T>(s: seq<T>, i: nat)
    requires i < |s|
    ensures s[..i + 1] == s[..i] + [s[i]]
    ensures s[..i + 1][..i] == s[..i]
  {
  }

  lemma NonEmptyHasElement(s: set<int>)
    requires s != {}
    ensures exists x :: x in s
  {
    if forall y :: y !in s {
      assert false;
    }
  }

  /** A finite set of integers holding x has a least element. */
  lemma {:induction false} HasMinimum(s: set<int>, x: int)
    requires x in s
    ensures exists m :: m in s && forall y :: y in s ==> m <= y
    decreases |s|
  {
    if s == {x} {
      assert forall y :: y in s ==> x <= y;
    } else {
      assert s - {x} != {};
      NonEmptyHasElement(s - {x});
      var z :| z in s - {x};
      HasMinimum(s - {x}, z);
      var m :| m in s - {x} && forall y :: y in s - {x} ==> m <= y;
      var least := if x < m then x else m;
      forall y | y in s
        ensures least <= y
      {
        if y != x {
          assert y in s - {x};
        }
      }
      assert least in s;
    }
  }

  /** The least element of a non-empty finite set of integers. */
  function Least(s: set<int>): (least: int)
    requires s != {}
    ensures least in s && forall x :: x in s ==> least <= x
  {
    NonEmptyHasElement(s);
    var some :| some in s;
    HasMinimum(s, some);
    var least :| least in s && forall x :: x in s ==> least <= x;
    least
  }

  /** `Object.keys` of an object whose keys are the integers s: every key once, in ascending order. */
  function AscendingKeys(s: set<int>): (ks: seq<int>)
    ensures Increasing(ks)
    ensures forall k :: k in ks <==> k in s
    decreases |s|
  {
    if s == {} then []
    else
      var least := Least(s);
      var rest := AscendingKeys(s - {least});
      IncreasingPrepend(least, rest);
      [least] + rest
  }

  lemma IncreasingPrepend(x: int, ks: seq<int>)
    requires Increasing(ks) && forall i :: 0 <= i < |ks| ==> x < ks[i]
    ensures Increasing([x] + ks)
  {
  }

  /** The number of bytes UTF-8 uses for a character. */
  function Utf8Width(c: char): (w: nat)
    ensures 1 <= w <= 4
  {
    if c as int < 0x80 then 1
    else if c as int < 0x800 then 2
    else if c as int < 0x1_0000 then 3
    else 4
  }

  /** `Buffer.byteLength(s)`: the length of s in UTF-8. */
  function Utf8Length(s: string): (n: nat)
    ensures |s| <= n <= 4 * |s|
  {
    if s == [] then 0 else Utf8Width(s[0]) + Utf8Length(s[1..])
  }

  /** A text of one two-byte character and two ASCII ones takes four bytes, as "\U{192}oo" does. */
  lemma Utf8LengthExample()
    ensures Utf8Length("\U{192}oo") == 4
  {
    assert "\U{192}oo"[1..] == "oo";
    assert "oo"[1..] == "o";
  }
}
