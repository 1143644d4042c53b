/**
 * The few pieces of the Java platform that the request bean leans on:
 * nullable strings, 32-bit `int` arithmetic, `String.hashCode`,
 * `Arrays.hashCode`, `Objects.toString`, `Character.isWhitespace` and
 * commons-lang's `StringUtils.isBlank`.
 */
module JavaLang {

  datatype Option<T> = None | Some(value: T)

  datatype Result<T, E> = Ok(value: T) | Err(error: E)

  /** A Java `String` reference: either `null` or a string of characters. */
  datatype JString = Null | Str(chars: string)

  /** Java's `int`: two's-complement, 32 bits. */
  newtype int32 = x: int | -0x8000_0000 <= x < 0x8000_0000

  const TwoTo32: int := 0x1_0000_0000

  /** The `int` that Java's arithmetic leaves when the exact result is `x`. */
  function Wrap32(x: int): (r: int32)
    ensures (r as int - x) % TwoTo32 == 0
    ensures -0x8000_0000 <= x < 0x8000_0000 ==> r as int == x
  {
    var m := x % TwoTo32;
    if m < 0x8000_0000 then m as int32 else (m - TwoTo32) as int32
  }

  /** `Objects.toString(s)`: the text itself, or "null" for a null reference. */
  function ObjectsToString(s: JString): (r: string)
    ensures s.Str? ==> r == s.chars
    ensures s.Null? ==> r == "null"
  {
    match s
    case Null => "null"
    case Str(chars) => chars
  }

  /** `Objects.toString(Boolean)`. */
  function BooleanToString(b: bool): (r: string)
    ensures r == "true" || r == "false"
    ensures b <==> r == "true"
  {
    if b then "true" else "false"
  }

  /** The UTF-16 code units Java stores for a string of Unicode scalar values. */
  function Utf16(s: string): (units: seq<int>)
    ensures |units| >= |s|
    ensures forall i :: 0 <= i < |units| ==> 0 <= units[i] < 0x1_0000
  {
    if s == [] then []
    else
      var c := s[0] as int;
      var head := if c < 0x1_0000 then [c]
                  else [0xD800 + (c - 0x1_0000) / 0x400, 0xDC00 + (c - 0x1_0000) % 0x400];
      head + Utf16(s[1..])
  }

  /** 31 to the power `n`. */
  function Pow31(n: nat): int
  {
    if n == 0 then 1 else 31 * Pow31(n - 1)
  }

  /** The exact polynomial `u[0]*31^(n-1) + ... + u[n-1]`, with no wrap-around. */
  function PolySum(units: seq<int>): int
  {
    if units == [] then 0 else units[0] * Pow31(|units| - 1) + PolySum(units[1..])
  }

  /** Numbers that are congruent modulo 2^32 wrap to the same `int`. */
  lemma Wrap32Congruent(x: int, y: int)
    requires (x - y) % TwoTo32 == 0
    ensures Wrap32(x) == Wrap32(y)
  {
    var k := (x - y) / TwoTo32;
    assert x == y + k * TwoTo32;
  }

  /** Multiplying keeps a congruence modulo 2^32. */
  lemma MulCongruent(a: int, b: int, c: int)
    requires (a - b) % TwoTo32 == 0
    ensures (a * c - b * c) % TwoTo32 == 0
  {
    var k := (a - b) / TwoTo32;
    assert a - b == k * TwoTo32;
    calc {
      a * c - b * c;
      (a - b) * c;
      (k * c) * TwoTo32;
    }
  }

  /**
   * `h = 31 * h + u` over the code units, wrapping at every step. Wrapping
   * at every step gives the wrap of the exact polynomial.
   */
  function PolyHash(h: int32, units: seq<int>): (r: int32)
    ensures r == Wrap32(h as int * Pow31(|units|) + PolySum(units))
    decreases |units|
  {
    if units == [] then h
    else
      var r := PolyHash(Wrap32(31 * h as int + units[0]), units[1..]);
      PolyHashStep(h, units, r);
      r
  }

  /** One step of `PolyHash`: wrapping the running hash early changes nothing. */
  lemma PolyHashStep(h: int32, units: seq<int>, r: int32)
    requires units != []
    requires r == Wrap32(Wrap32(31 * h as int + units[0]) as int * Pow31(|units| - 1) + PolySum(units[1..]))
    ensures r == Wrap32(h as int * Pow31(|units|) + PolySum(units))
  {
    var exact := 31 * h as int + units[0];
    var p, rest := Pow31(|units| - 1), PolySum(units[1..]);
    WrapEarly(exact, p, rest);
    HornerStep(h as int, units[0], p);
    assert Pow31(|units|) == 31 * p;
    assert PolySum(units) == units[0] * p + rest;
  }

  /** Wrapping a factor before multiplying does not change the wrapped result. */
  lemma WrapEarly(x: int, p: int, rest: int)
    ensures Wrap32(Wrap32(x) as int * p + rest) == Wrap32(x * p + rest)
  {
    var w := Wrap32(x) as int;
    MulCongruent(w, x, p);
    Wrap32Congruent(w * p + rest, x * p + rest);
  }

  lemma HornerStep(h: int, u: int, p: int)
    ensures (31 * h + u) * p == h * (31 * p) + u * p
  {
  }

  /** `String.hashCode()`: `s[0]*31^(n-1) + ... + s[n-1]` over the UTF-16
    * code units, in 32-bit arithmetic. */
  function StringHashCode(s: string): (h: int32)
    ensures h == Wrap32(PolySum(Utf16(s)))
    ensures s == [] ==> h == 0
  {
    PolyHash(0, Utf16(s))
  }

  /** `Arrays.hashCode(Object[])` over elements whose hash codes are `hs`:
    * `31^n + hs[0]*31^(n-1) + ... + hs[n-1]`, in 32-bit arithmetic. */
  function ArraysHashCode(hs: seq<int32>): (h: int32)
    ensures h == Wrap32(Pow31(|hs|) + PolySum(seq(|hs|, i requires 0 <= i < |hs| => hs[i] as int)))
  {
    PolyHash(1, seq(|hs|, i requires 0 <= i < |hs| => hs[i] as int))
  }

  /** `Character.isSpaceChar(char)`: the Unicode space separators, the line
    * separator and the paragraph separator. */
  predicate IsSpaceChar(c: char)
  {
    var n := c as int;
    || n == 0x20 || n == 0xA0 || n == 0x1680 || 0x2000 <= n <= 0x200A
    || n == 0x2028 || n == 0x2029 || n == 0x202F || n == 0x205F || n == 0x3000
  }

  /** `Character.isISOControl(char)`. */
  predicate IsISOControl(c: char)
  {
    c as int <= 0x1F || 0x7F <= c as int <= 0x9F
  }

  /** `Character.isWhitespace(char)`, by code point. Its documented
    * definition: a space character other than the three no-break spaces, or
    * one of the controls U+0009-U+000D and U+001C-U+001F. */
  predicate IsJavaWhitespace(c: char)
    ensures IsJavaWhitespace(c) <==>
              || (IsSpaceChar(c) && c as int != 0xA0 && c as int != 0x2007 && c as int != 0x202F)
              || 0x09 <= c as int <= 0x0D || 0x1C <= c as int <= 0x1F
  {
    var n := c as int;
    || 0x09 <= n <= 0x0D || 0x1C <= n <= 0x20
    || n == 0x1680 || (0x2000 <= n <= 0x200A && n != 0x2007)
    || n == 0x2028 || n == 0x2029 || n == 0x205F || n == 0x3000
  }

  /** A text with at least one character that is not Java whitespace. */
  ghost predicate HasVisibleText(s: string)
  {
    exists i :: 0 <= i < |s| && !IsJavaWhitespace(s[i])
  }

  /** `StringUtils.isBlank`: null, empty, or whitespace only. */
  function IsBlank(s: JString): (r: bool)
    ensures s.Null? ==> r
    ensures s.Str? ==> (r <==> forall i :: 0 <= i < |s.chars| ==> IsJavaWhitespace(s.chars[i]))
  {
    match s
    case Null => true
    case Str(chars) => AllWhitespace(chars)
  }

  /** The character loop of `StringUtils.isBlank`. */
  function AllWhitespace(s: string): (r: bool)
    ensures r <==> forall i :: 0 <= i < |s| ==> IsJavaWhitespace(s[i])
  {
    if s == [] then true
    else IsJavaWhitespace(s[0]) && AllWhitespace(s[1..])
  }

  /** `StringUtils.isNotBlank`. */
  function IsNotBlank(s: JString): (r: bool)
    ensures r <==> s.Str? && HasVisibleText(s.chars)
  {
    !IsBlank(s)
  }
}
