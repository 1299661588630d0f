/** The few JavaScript runtime behaviours the node's code relies on:
    byte buffers and their `indexOf`/`subarray`, hexadecimal and decimal
    rendering, and the `undefined`/`null`/string values of option fields. */
module Runtime {

  newtype byte = x: int | 0 <= x < 256

  datatype Option<T> = None | Some(value: T)

  /** A JavaScript value where the code distinguishes `undefined`, `null`
      and a string. */
  datatype JsValue = Undefined | Null | Str(s: string)

  /** How a template literal renders the value. */
  function Render(v: JsValue): string
  {
    match v
    case Undefined => "undefined"
    case Null => "null"
    case Str(s) => s
  }

  // ---------------------------------------------------------------------
  // Buffers

  /** `buf.indexOf(b, from)` for a one-byte needle and a non-negative
      offset: the first position at or after `from` holding `b`, or -1. */
  function IndexOf(data: seq<byte>, b: byte, from: nat): (r: int)
    ensures r == -1 || from <= r < |data|
    ensures r == -1 <==> forall j :: from <= j < |data| ==> data[j] != b
    ensures r != -1 ==> data[r] == b && forall j :: from <= j < r ==> data[j] != b
    decreases |data| - from
  {
    if from >= |data| then -1
    else if data[from] == b then from
    else IndexOf(data, b, from + 1)
  }

  /** A relative index of `subarray`: a negative one counts from the end,
      and the result is clamped to `[0, len]`. */
  function Clamp(i: int, len: nat): (r: nat)
    ensures r <= len
    ensures 0 <= i <= len ==> r == i
    ensures i > len ==> r == len
    ensures i < 0 && len + i >= 0 ==> r == len + i
    ensures len + i < 0 ==> r == 0
  {
    if i < 0 then (if len + i < 0 then 0 else len + i)
    else if i > len then len
    else i
  }

  /** `buf.subarray(begin, end)`: the bytes between the two clamped
      indices, empty when they cross. */
  function Subarray(data: seq<byte>, begin: int, end: int): (r: seq<byte>)
    ensures |r| <= |data|
    ensures 0 <= begin <= end <= |data| ==> r == data[begin..end]
    ensures 0 <= begin <= |data| < end ==> r == data[begin..]
    ensures end < 0 && 0 <= begin <= |data| + end ==> r == data[begin..|data| + end]
    ensures 0 <= begin && |data| + end < begin ==> r == []
    ensures 0 <= end < begin ==> r == []
  {
    var b := Clamp(begin, |data|);
    var e := Clamp(end, |data|);
    if b <= e then data[b..e] else []
  }

  // ---------------------------------------------------------------------
  // Hexadecimal rendering (`b4a.toString(buf, 'hex')`, `buf.toString('hex')`)

  function HexDigit(n: int): char
    requires 0 <= n < 16
  {
    if n < 10 then ('0' as int + n) as char else ('a' as int + n - 10) as char
  }

  function HexValue(c: char): int
  {
    if c <= '9' then c as int - '0' as int else c as int - 'a' as int + 10
  }

  /** A lower-case hexadecimal digit. */
  predicate IsHexDigit(c: char)
  {
    '0' <= c <= '9' || 'a' <= c <= 'f'
  }

  /** Two lower-case digits, high nibble first. */
  function HexByte(b: byte): (r: string)
    ensures |r| == 2
    ensures IsHexDigit(r[0]) && IsHexDigit(r[1])
    ensures HexValue(r[0]) * 16 + HexValue(r[1]) == b as int
  {
    [HexDigit(b as int / 16), HexDigit(b as int % 16)]
  }

  function Hex(bs: seq<byte>): (r: string)
    ensures |r| == 2 * |bs|
  {
    if bs == [] then "" else HexByte(bs[0]) + Hex(bs[1..])
  }

  /** Characters 2i and 2i+1 of the rendering are the digits of byte i. */
  lemma {:induction false} HexAt(bs: seq<byte>, i: nat)
    requires i < |bs|
    ensures Hex(bs)[2 * i..2 * i + 2] == HexByte(bs[i])
  {
    if i > 0 {
      HexAt(bs[1..], i - 1);
      assert Hex(bs)[2 * i..2 * i + 2] == Hex(bs[1..])[2 * (i - 1)..2 * (i - 1) + 2];
    }
  }

  /** Distinct byte strings never share a hexadecimal rendering, so a map
      keyed by the rendering is keyed by the bytes themselves. */
  lemma HexInjective(a: seq<byte>, b: seq<byte>)
    requires Hex(a) == Hex(b)
    ensures a == b
  {
    assert |a| == |b|;
    forall i | 0 <= i < |a| ensures a[i] == b[i] {
      HexAt(a, i);
      HexAt(b, i);
      assert HexByte(a[i]) == HexByte(b[i]);
    }
  }

  /** A rendering holds nothing but hexadecimal digits. */
  lemma HexDigits(bs: seq<byte>, k: nat)
    requires k < |Hex(bs)|
    ensures IsHexDigit(Hex(bs)[k])
  {
    HexAt(bs, k / 2);
    assert Hex(bs)[k] == Hex(bs)[2 * (k / 2)..2 * (k / 2) + 2][k % 2];
  }

  // ---------------------------------------------------------------------
  // Decimal rendering of integers in template literals

  function DecimalDigit(n: int): char
    requires 0 <= n < 10
  {
    ('0' as int + n) as char
  }

  /** The number a string of decimal digits denotes, most significant
      digit first. */
  function DecimalValue(s: string): int
  {
    if s == [] then 0 else 10 * DecimalValue(s[..|s| - 1]) + (s[|s| - 1] as int - '0' as int)
  }

  function NatToString(n: nat): (r: string)
    ensures |r| >= 1
    ensures forall i :: 0 <= i < |r| ==> '0' <= r[i] <= '9'
  {
    if n < 10 then [DecimalDigit(n)] else NatToString(n / 10) + [DecimalDigit(n % 10)]
  }

  function IntToString(n: int): (r: string)
    ensures |r| >= 1
    ensures r[0] == '-' <==> n < 0
  {
    if n < 0 then "-" + NatToString(-n) else NatToString(n)
  }

  /** The digits denote the number itself. */
  lemma {:induction false} NatToStringValue(n: nat)
    ensures DecimalValue(NatToString(n)) == n
  {
    if n >= 10 {
      NatToStringValue(n / 10);
      var r := NatToString(n);
      assert r[..|r| - 1] == NatToString(n / 10);
    }
  }

  /** A template literal renders an integer below 10^21 in magnitude as
      its sign, if negative, followed by the digits of its magnitude; so
      distinct numbers give distinct renderings. */
  lemma IntToStringValue(n: int, m: int)
    ensures n >= 0 ==> DecimalValue(IntToString(n)) == n
    ensures n < 0 ==> DecimalValue(IntToString(n)[1..]) == -n
    ensures IntToString(n) == IntToString(m) ==> n == m
  {
    NatToStringValue(if n < 0 then -n else n);
    NatToStringValue(if m < 0 then -m else m);
    if n < 0 {
      assert IntToString(n)[1..] == NatToString(-n);
    }
    if m < 0 {
      assert IntToString(m)[1..] == NatToString(-m);
    }
  }
}
