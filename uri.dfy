/**
 * What `new java.net.URI(text)` accepts, reduced to the lexical rules of
 * RFC 2396 that decide most inputs: every character is a URI character or
 * a non-ASCII "other" character, each `%` starts an escaped octet, there is
 * at most one `#`, and a scheme (the text before a `:` that comes before any
 * `/`, `?` or `#`) is a letter followed by letters, digits, `+`, `-` or `.`,
 * with a scheme-specific part after it that is not empty before any `#`.
 * The brackets `[` and `]` (reserved since RFC 2732) may appear in a query,
 * in a fragment and in the opaque part of a URI. The empty string is a
 * valid (empty relative) reference, as it is for `java.net.URI`.
 */
module Uris {
  import opened JavaLang

  /** A parsed `java.net.URI`, kept as the text it was parsed from. */
  datatype Uri = Uri(text: string)

  predicate IsAlpha(c: char) { 'a' <= c <= 'z' || 'A' <= c <= 'Z' }

  predicate IsDigit(c: char) { '0' <= c <= '9' }

  predicate IsHex(c: char) { IsDigit(c) || 'a' <= c <= 'f' || 'A' <= c <= 'F' }

  /** RFC 2396 section 2.3 "unreserved". */
  predicate IsUnreserved(c: char)
  {
    || IsAlpha(c) || IsDigit(c)
    || c == '-' || c == '_' || c == '.' || c == '!' || c == '~'
    || c == '*' || c == '\'' || c == '(' || c == ')'
  }

  /** RFC 2396 section 2.2 "reserved", without the brackets of RFC 2732. */
  predicate IsReserved(c: char)
  {
    || c == ';' || c == '/' || c == '?' || c == ':' || c == '@'
    || c == '&' || c == '=' || c == '+' || c == '$' || c == ','
  }

  /** Non-ASCII characters that are neither controls nor space characters,
    * which `java.net.URI` admits in addition to RFC 2396. */
  predicate IsOther(c: char)
  {
    c as int > 0x80 && !IsSpaceChar(c) && !IsISOControl(c)
  }

  predicate IsBracket(c: char) { c == '[' || c == ']' }

  predicate IsUriChar(c: char)
  {
    IsUnreserved(c) || IsReserved(c) || IsOther(c) || c == '%' || c == '#'
  }

  predicate IsSchemeChar(c: char)
  {
    IsAlpha(c) || IsDigit(c) || c == '+' || c == '-' || c == '.'
  }

  /** Ends a scheme. */
  predicate EndsScheme(c: char) { c == ':' }

  /** Ends the part of the text in which a scheme can end. */
  predicate EndsSchemeSearch(c: char) { c == '/' || c == '?' || c == '#' }

  /** The position of the `:` that ends a scheme, if the text has one. */
  function SchemeColon(s: string, from: nat): (k: Option<nat>)
    requires from <= |s|
    ensures k.Some? ==> from <= k.value < |s| && s[k.value] == ':'
    ensures k.Some? ==> forall j :: from <= j < k.value ==> !EndsScheme(s[j]) && !EndsSchemeSearch(s[j])
    ensures k.None? ==> forall j :: from <= j < |s| && EndsScheme(s[j]) ==>
                          exists m :: from <= m < j && EndsSchemeSearch(s[m])
    decreases |s| - from
  {
    if from == |s| then None
    else if EndsScheme(s[from]) then Some(from)
    else if EndsSchemeSearch(s[from]) then None
    else SchemeColon(s, from + 1)
  }

  predicate WellFormedScheme(s: string)
  {
    match SchemeColon(s, 0)
    case None => true
    case Some(k) =>
      && k > 0 && IsAlpha(s[0])
      && (forall j :: 0 < j < k ==> IsSchemeChar(s[j]))
      && k + 1 < |s| && s[k + 1] != '#'
  }

  /** A URI with a scheme whose scheme-specific part does not start with `/`. */
  predicate IsOpaque(s: string)
  {
    match SchemeColon(s, 0)
    case None => false
    case Some(k) => k + 1 < |s| && s[k + 1] != '/'
  }

  /** Where the query or the fragment begins: the first `?` or `#`, or the end. */
  function QueryStart(s: string, from: nat): (k: nat)
    requires from <= |s|
    ensures from <= k <= |s|
    ensures forall j :: from <= j < k ==> s[j] != '?' && s[j] != '#'
    ensures k < |s| ==> s[k] == '?' || s[k] == '#'
    decreases |s| - from
  {
    if from == |s| || s[from] == '?' || s[from] == '#' then from else QueryStart(s, from + 1)
  }

  /** Whether `new java.net.URI(s)` succeeds. */
  predicate ValidUri(s: string)
    ensures ValidUri(s) ==> forall i :: 0 <= i < |s| ==> !IsSpaceChar(s[i]) && !IsISOControl(s[i])
    ensures s == [] ==> ValidUri(s)
  {
    && (forall i :: 0 <= i < |s| ==>
          IsUriChar(s[i]) || (IsBracket(s[i]) && (IsOpaque(s) || i >= QueryStart(s, 0))))
    && (forall i :: 0 <= i < |s| && s[i] == '%' ==> i + 2 < |s| && IsHex(s[i + 1]) && IsHex(s[i + 2]))
    && (forall i, j :: 0 <= i < j < |s| && s[i] == '#' ==> s[j] != '#')
    && WellFormedScheme(s)
  }

  /** `RequestBean.constructUri`: parses the endpoint, and yields no URI when
    * the endpoint is null or the parser rejects it; it never throws. */
  function ConstructUri(endpoint: JString): (r: Option<Uri>)
    ensures r.Some? <==> endpoint.Str? && ValidUri(endpoint.chars)
    ensures r.Some? ==> r.value.text == endpoint.chars
  {
    if endpoint.Str? && ValidUri(endpoint.chars) then Some(Uri(endpoint.chars)) else None
  }

  /** The empty endpoint parses: `constructUri("")` yields a URI. */
  lemma EmptyEndpointParses()
    ensures ConstructUri(Str("")).Some?
  {
  }

  /** An absolute HTTP URL parses. */
  lemma HttpUrlParses()
    ensures ConstructUri(Str("http://h/x")).Some?
  {
    var good := "http://h/x";
    assert SchemeColon(good, 4) == Some(4);
    assert SchemeColon(good, 0) == Some(4);
    assert WellFormedScheme(good);
    assert forall i :: 0 <= i < |good| ==> good[i] != '%' && good[i] != '#';
    assert forall i :: 0 <= i < |good| ==> IsUriChar(good[i]);
  }

  /** A URL with a space in it does not parse. */
  lemma SpaceDoesNotParse()
    ensures ConstructUri(Str("http://a b")).None?
  {
    var bad := "http://a b";
    assert !IsUriChar(bad[8]);
  }

  /** A colon at the very start leaves the scheme empty, which the parser rejects. */
  lemma EmptySchemeDoesNotParse()
    ensures ConstructUri(Str(":x")).None?
  {
    assert SchemeColon(":x", 0) == Some(0);
  }

  /** Brackets are allowed in a query. */
  lemma BracketInQueryParses()
    ensures ConstructUri(Str("a?[")).Some?
  {
    assert QueryStart("a?[", 1) == 1;
    assert SchemeColon("a?[", 2) == None;
    assert SchemeColon("a?[", 0) == None;
  }

  /** Brackets are not allowed in a path. */
  lemma BracketInPathDoesNotParse()
    ensures ConstructUri(Str("a[")).None?
  {
    assert QueryStart("a[", 1) == 2;
    assert !IsUriChar("a["[1]);
  }

  /** The figure space U+2007 is a space character, which a URI may not hold. */
  lemma FigureSpaceDoesNotParse()
    ensures ConstructUri(Str("a\U{2007}b")).None?
  {
    assert IsSpaceChar("a\U{2007}b"[1]);
  }

  /** A scheme-specific part that is empty before the fragment does not parse. */
  lemma EmptyOpaquePartDoesNotParse()
    ensures ConstructUri(Str("x:#f")).None?
  {
    assert SchemeColon("x:#f", 1) == Some(1);
  }
}
