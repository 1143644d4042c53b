/**
 * XML escaping of the request payload, over the five predefined entities of
 * section 4.6 of XML 1.0 (Fifth Edition): `&amp; &lt; &gt; &quot; &apos;`.
 *
 * `Escape` stands for commons-lang's `escapeXml11`, which also deletes the
 * characters XML 1.1 cannot carry at all (NUL, U+FFFE, U+FFFF); `Unescape`
 * stands for `unescapeXml`. Both are extended to Java's null reference,
 * which they return unchanged.
 */
module XmlEscape {
  import opened JavaLang

  /** The characters `escapeXml11` removes instead of escaping. */
  predicate IsDropped(c: char)
  {
    c == 0 as char || c == 0xFFFE as char || c == 0xFFFF as char
  }

  /** The five characters that have a predefined entity. */
  predicate IsMarkup(c: char)
  {
    c == '&' || c == '<' || c == '>' || c == '"' || c == '\''
  }

  /** The entity reference for one of the five markup characters. */
  function EntityFor(c: char): (e: string)
    requires IsMarkup(c)
    ensures |e| >= 4 && e[0] == '&' && e[|e| - 1] == ';'
  {
    match c
    case '&' => "&amp;"
    case '<' => "&lt;"
    case '>' => "&gt;"
    case '"' => "&quot;"
    case '\'' => "&apos;"
  }

  /** What the escaper writes for one input character. */
  function EscapeChar(c: char): string
  {
    if IsMarkup(c) then EntityFor(c)
    else if IsDropped(c) then ""
    else [c]
  }

  /**
   * Every `&` of an escaped text begins one of the five entity references,
   * and no other markup character is left bare.
   */
  ghost predicate IsEscaped(t: string)
  {
    forall i :: 0 <= i < |t| ==>
      && t[i] != '<' && t[i] != '>' && t[i] != '"' && t[i] != '\''
      && (t[i] == '&' ==> EntityAt(t[i..]).Some?)
  }

  /** `escapeXml11` on a non-null string. */
  function EscapeChars(s: string): (t: string)
    ensures |t| >= |s| - CountDropped(s)
    ensures IsEscaped(t)
  {
    if s == [] then []
    else
      var head, tail := EscapeChar(s[0]), EscapeChars(s[1..]);
      EscapeConcat(head, tail);
      head + tail
  }

  function CountDropped(s: string): nat
  {
    if s == [] then 0 else (if IsDropped(s[0]) then 1 else 0) + CountDropped(s[1..])
  }

  lemma EscapeConcat(head: string, tail: string)
    requires IsEscaped(tail)
    requires head == [] || (|head| == 1 && !IsMarkup(head[0])) || exists c :: IsMarkup(c) && head == EntityFor(c)
    ensures IsEscaped(head + tail)
  {
    var t := head + tail;
    forall i | 0 <= i < |t|
      ensures t[i] != '<' && t[i] != '>' && t[i] != '"' && t[i] != '\''
      ensures t[i] == '&' ==> EntityAt(t[i..]).Some?
    {
      if i < |head| {
        if |head| > 1 {
          var c :| IsMarkup(c) && head == EntityFor(c);
          if i == 0 {
            assert t[i..] == EntityFor(c) + tail;
            EntityAtPrefix(c, tail);
          }
        }
      } else {
        assert t[i] == tail[i - |head|];
        assert t[i..] == tail[i - |head|..];
      }
    }
  }

  /** The entity reference `s` starts with, and the character it stands for. */
  function EntityAt(s: string): Option<(char, nat)>
  {
    if |s| >= 5 && s[..5] == "&amp;" then Some(('&', 5))
    else if |s| >= 4 && s[..4] == "&lt;" then Some(('<', 4))
    else if |s| >= 4 && s[..4] == "&gt;" then Some(('>', 4))
    else if |s| >= 6 && s[..6] == "&quot;" then Some(('"', 6))
    else if |s| >= 6 && s[..6] == "&apos;" then Some(('\'', 6))
    else None
  }

  lemma EntityAtPrefix(c: char, rest: string)
    requires IsMarkup(c)
    ensures EntityAt(EntityFor(c) + rest) == Some((c, |EntityFor(c)|))
  {
    var t := EntityFor(c) + rest;
    assert t[..|EntityFor(c)|] == EntityFor(c);
    assert t[0] == '&' && t[1] == EntityFor(c)[1] && t[2] == EntityFor(c)[2];
    if |t| >= 5 && c == '\'' {
      assert t[..5][2] != "&amp;"[2];
    } else if |t| >= 5 && c != '&' {
      assert t[..5][1] != "&amp;"[1];
    }
    if |t| >= 4 && c != '<' {
      assert t[..4][1] != "&lt;"[1];
    }
    if |t| >= 4 && c != '>' {
      assert t[..4][1] != "&gt;"[1];
    }
    if |t| >= 6 && c != '"' {
      assert t[..6][1] != "&quot;"[1];
    }
  }

  predicate IsHexDigit(c: char) { '0' <= c <= '9' || 'a' <= c <= 'f' || 'A' <= c <= 'F' }

  function DigitValue(c: char): (v: nat)
    requires IsHexDigit(c)
    ensures v < 16
    ensures '0' <= c <= '9' <==> v < 10
  {
    if '0' <= c <= '9' then c as int - '0' as int
    else if 'a' <= c <= 'f' then c as int - 'a' as int + 10
    else c as int - 'A' as int + 10
  }

  /** `Integer.parseInt(digits, radix)` on an unsigned run of digits, before
    * the range check. */
  function ParseDigits(digits: string, radix: nat): nat
    requires forall i :: 0 <= i < |digits| ==> IsHexDigit(digits[i])
  {
    if digits == [] then 0
    else ParseDigits(digits[..|digits| - 1], radix) * radix + DigitValue(digits[|digits| - 1])
  }

  predicate AllDecimal(digits: string)
  {
    forall i :: 0 <= i < |digits| ==> '0' <= digits[i] <= '9'
  }

  /** The end of the run of hexadecimal digits that starts at `from`. */
  function HexRun(s: string, from: nat): (end: nat)
    requires from <= |s|
    ensures from <= end <= |s|
    ensures forall i :: from <= i < end ==> IsHexDigit(s[i])
    ensures end < |s| ==> !IsHexDigit(s[end])
    decreases |s| - from
  {
    if from < |s| && IsHexDigit(s[from]) then HexRun(s, from + 1) else from
  }

  /**
   * The numeric character reference `&#`digits`;` or `&#x`hex`;` that `s`
   * starts with, the character it stands for and its length. As in
   * commons-lang's `NumericEntityUnescaper`, the digits are the run of
   * hexadecimal digits after `&#` or `&#x`, the `;` is required, and a
   * reference whose digits `Integer.parseInt` rejects (none, a letter in a
   * decimal reference, a value above 2^31 - 1) is left as text. A value
   * that is a surrogate or lies above U+10FFFF is left as text here too.
   */
  function NumericRefAt(s: string): (r: Option<(char, nat)>)
    ensures r.Some? ==> 4 <= r.value.1 <= |s| && s[0] == '&' && s[1] == '#'
  {
    if |s| < 3 || s[0] != '&' || s[1] != '#' then None
    else
      var hex := s[2] == 'x' || s[2] == 'X';
      var start := if hex then 3 else 2;
      if start == |s| then None
      else
        var end := HexRun(s, start);
        var digits := s[start..end];
        if end == |s| || s[end] != ';' || digits == [] then None
        else if !hex && !AllDecimal(digits) then None
        else
          var v := ParseDigits(digits, if hex then 16 else 10);
          if v > 0x7FFF_FFFF || (0xD800 <= v < 0xE000) || v >= 0x11_0000 then None
          else Some((v as char, end + 1))
  }

  /** `unescapeXml` on a non-null string: each entity reference and each
    * numeric character reference becomes its character, every other
    * character is copied. */
  function UnescapeChars(s: string): (r: string)
    ensures |r| <= |s|
    decreases |s|
  {
    if s == [] then []
    else match EntityAt(s)
      case Some((c, n)) => [c] + UnescapeChars(s[n..])
      case None =>
        match NumericRefAt(s)
        case Some((c, n)) => [c] + UnescapeChars(s[n..])
        case None => [s[0]] + UnescapeChars(s[1..])
  }

  function Escape(s: JString): (r: JString)
    ensures r.Null? <==> s.Null?
  {
    match s
    case Null => Null
    case Str(chars) => Str(EscapeChars(chars))
  }

  function Unescape(s: JString): (r: JString)
    ensures r.Null? <==> s.Null?
  {
    match s
    case Null => Null
    case Str(chars) => Str(UnescapeChars(chars))
  }

  /** Unescaping an entity reference yields its character. */
  lemma UnescapeEntity(c: char, rest: string)
    requires IsMarkup(c)
    ensures UnescapeChars(EntityFor(c) + rest) == [c] + UnescapeChars(rest)
  {
    EntityAtPrefix(c, rest);
    assert (EntityFor(c) + rest)[|EntityFor(c)|..] == rest;
  }

  /** A character other than `&` is copied by the unescaper. */
  lemma UnescapePlain(c: char, rest: string)
    requires c != '&'
    ensures UnescapeChars([c] + rest) == [c] + UnescapeChars(rest)
  {
    assert ([c] + rest)[0] == c;
    assert ([c] + rest)[1..] == rest;
  }

  /** A decimal reference is decoded. */
  lemma DecimalReferenceDecoded()
    ensures UnescapeChars("&#60;") == "<"
  {
    var dec := "&#60;";
    assert HexRun(dec, 2) == 4 by { assert HexRun(dec, 4) == 4; }
    assert ParseDigits("60", 10) == 60 by { assert "60"[..1] == "6"; assert "6"[..0] == ""; }
    assert dec[2..4] == "60";
    assert NumericRefAt(dec) == Some(('<', 5));
    assert UnescapeChars(dec) == "<" by { assert dec[5..] == []; }
  }

  /** A hexadecimal reference is decoded. */
  lemma HexReferenceDecoded()
    ensures UnescapeChars("&#x3c;") == "<"
  {
    var hex := "&#x3c;";
    assert HexRun(hex, 3) == 5 by { assert HexRun(hex, 5) == 5; }
    assert ParseDigits("3c", 16) == 60 by { assert "3c"[..1] == "3"; assert "3"[..0] == ""; }
    assert hex[3..5] == "3c";
    assert NumericRefAt(hex) == Some(('<', 6));
    assert UnescapeChars(hex) == "<" by { assert hex[6..] == []; }
  }

  /** A decimal reference with a hexadecimal letter in it is not decoded. */
  lemma DecimalReferenceWithLetterKept()
    ensures NumericRefAt("&#6a;").None?
  {
    var bad := "&#6a;";
    assert HexRun(bad, 2) == 4 by { assert HexRun(bad, 4) == 4; }
    var digits := bad[2..4];
    assert !(bad[2] == 'x' || bad[2] == 'X') && bad[4] == ';';
    assert !AllDecimal(digits) by { assert !('0' <= digits[1] <= '9'); }
  }

  /** Unescaping undoes escaping for every text the escaper does not truncate. */
  lemma {:induction false} UnescapeEscapeChars(s: string)
    requires forall i :: 0 <= i < |s| ==> !IsDropped(s[i])
    ensures UnescapeChars(EscapeChars(s)) == s
  {
    if s != [] {
      var c, tail := s[0], EscapeChars(s[1..]);
      assert EscapeChars(s) == EscapeChar(c) + tail;
      UnescapeEscapeChars(s[1..]);
      if IsMarkup(c) {
        UnescapeEntity(c, tail);
      } else {
        UnescapePlain(c, tail);
      }
      assert s == [c] + s[1..];
    }
  }

  lemma UnescapeEscape(s: JString)
    requires s.Str? ==> forall i :: 0 <= i < |s.chars| ==> !IsDropped(s.chars[i])
    ensures Unescape(Escape(s)) == s
  {
    if s.Str? {
      UnescapeEscapeChars(s.chars);
    }
  }

  /** The escaper loses a NUL character, so the round trip needs the precondition. */
  lemma NulIsLost()
    ensures UnescapeChars(EscapeChars([0 as char])) == []
  {
    assert EscapeChars([0 as char]) == [] + EscapeChars([]);
  }
}
