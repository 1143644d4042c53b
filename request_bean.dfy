/**
 * `RequestBean`: the mutable description of one HTTP request. It stores
 * seven request fields (the payload in its XML-escaped form) and two session
 * fields, the URI derived from the endpoint and a timeout.
 */
module Requests {
  import opened JavaLang
  import opened XmlEscape
  import opened Uris

  /**
   * The seven request values, either as a bean stores them (payload escaped)
   * or as the `Request` getters return them (payload decoded).
   */
  datatype Fields = Fields(
    endpoint: JString,
    payload: JString,
    requestMethod: JString,
    contentType: JString,
    base64: bool,
    httpUser: JString,
    httpPassword: JString)

  /** What the getters return for a bean that stores `stored`: everything
    * verbatim except the payload, which `getPayload` unescapes. */
  function GetterValues(stored: Fields): Fields
  {
    stored.(payload := Unescape(stored.payload))
  }

  /** Static `isActionable(Request)`: false for a null request, otherwise
    * endpoint, method and content type must all be non-blank. */
  function IsActionableRequest(request: Option<Fields>): (r: bool)
    ensures r <==> && request.Some?
                   && request.value.endpoint.Str? && HasVisibleText(request.value.endpoint.chars)
                   && request.value.requestMethod.Str? && HasVisibleText(request.value.requestMethod.chars)
                   && request.value.contentType.Str? && HasVisibleText(request.value.contentType.chars)
  {
    match request
    case None => false
    case Some(f) => IsNotBlank(f.endpoint) && IsNotBlank(f.requestMethod) && IsNotBlank(f.contentType)
  }

  /** The seven `Objects.toString` values that the hash is taken over. */
  function Stringified(f: Fields): seq<string>
  {
    [ ObjectsToString(f.endpoint), ObjectsToString(f.payload), ObjectsToString(f.requestMethod),
      ObjectsToString(f.contentType), BooleanToString(f.base64),
      ObjectsToString(f.httpUser), ObjectsToString(f.httpPassword) ]
  }

  /** Static `hashCode(Request)`: 0 for null, otherwise `Objects.hash` of the
    * seven stringified getter values. */
  function HashOf(request: Option<Fields>): (r: int32)
    ensures request.None? ==> r == 0
  {
    match request
    case None => 0
    case Some(f) =>
      var texts := Stringified(f);
      ArraysHashCode(seq(7, i requires 0 <= i < 7 => StringHashCode(texts[i])))
  }

  /** A call to `String.format` whose result is left to the library. */
  datatype Formatted = EmptyText | FormatCall(format: string, args: Fields)

  /** Static `toString(format, request)`: the empty string when either
    * argument is null, otherwise a format call over the seven getter values. */
  function FormatRequest(format: JString, request: Option<Fields>): (r: Formatted)
    ensures r == EmptyText <==> format.Null? || request.None?
    ensures r.FormatCall? ==> r.format == format.chars && r.args == request.value
  {
    if format.Null? || request.None? then EmptyText
    else FormatCall(format.chars, request.value)
  }

  class RequestBean {
    var endpoint: JString
    var payload: JString
    var requestMethod: JString
    var contentType: JString
    var base64: bool
    var httpUser: JString
    var httpPassword: JString
    /** Derived from the endpoint; absent when it does not parse. */
    var uri: Option<Uri>
    /** A session value that nothing in the bean ever sets. */
    var timeout: int32

    /**
     * The URI is the one derived from the endpoint, except in a bean fresh
     * from the default constructor, whose empty endpoint would parse but
     * whose URI is left absent; the timeout stays 0.
     */
    ghost predicate Valid()
      reads this
    {
      && timeout == 0
      && (uri == ConstructUri(endpoint) || (uri.None? && endpoint == Str("")))
    }

    /** The seven request fields as stored. */
    function Stored(): Fields
      reads this
    {
      Fields(endpoint, payload, requestMethod, contentType, base64, httpUser, httpPassword)
    }

    /** The seven getters of `Request`: `getEndpoint`, `getPayload`, ... */
    function View(): (r: Fields)
      reads this
      ensures r.payload == Unescape(payload)
      ensures r.(payload := payload) == Stored()
    {
      GetterValues(Stored())
    }

    /** The default, blank bean. */
    constructor ()
      ensures Valid()
      ensures Stored() == Fields(Str(""), Str(""), Str(""), Str(""), false, Str(""), Str(""))
      ensures uri.None? && timeout == 0
    {
      uri := None;
      endpoint := Str("");
      payload := Str("");
      requestMethod := Str("");
      contentType := Str("");
      base64 := false;
      httpUser := Str("");
      httpPassword := Str("");
      timeout := 0;
    }

    /** The seven-argument constructor: every argument is stored verbatim,
      * the payload included, and the URI is derived from the endpoint. */
    constructor FromFields(endpoint: JString, payload: JString, requestMethod: JString, contentType: JString,
                           base64: bool, httpUser: JString, httpPassword: JString)
      ensures Valid()
      ensures Stored() == Fields(endpoint, payload, requestMethod, contentType, base64, httpUser, httpPassword)
      ensures uri == ConstructUri(endpoint) && timeout == 0
    {
      this.endpoint := endpoint;
      this.payload := payload;
      this.requestMethod := requestMethod;
      this.contentType := contentType;
      this.base64 := base64;
      this.httpUser := httpUser;
      this.httpPassword := httpPassword;
      this.uri := ConstructUri(endpoint);
      this.timeout := 0;
    }

    /** The copy constructor: the seven-argument constructor applied to the
      * other request's getters, so the decoded payload becomes the stored one. */
    constructor FromRequest(request: RequestBean)
      ensures Valid()
      ensures Stored() == request.View()
      ensures uri == ConstructUri(request.endpoint) && timeout == 0
    {
      var values := request.View();
      this.endpoint := values.endpoint;
      this.payload := values.payload;
      this.requestMethod := values.requestMethod;
      this.contentType := values.contentType;
      this.base64 := values.base64;
      this.httpUser := values.httpUser;
      this.httpPassword := values.httpPassword;
      this.uri := ConstructUri(values.endpoint);
      this.timeout := 0;
    }

    /** `getPayload`: the stored payload, unescaped. */
    function GetPayload(): (r: JString)
      reads this
      ensures r.Null? <==> payload.Null?
      ensures r == View().payload
    {
      Unescape(payload)
    }

    /** `getPayloadRaw`: the stored payload, as stored. */
    function GetPayloadRaw(): (r: JString)
      reads this
      ensures r == Stored().payload
    {
      payload
    }

    method SetEndpoint(endpoint: JString)
      modifies this
      ensures this.endpoint == endpoint && uri == ConstructUri(endpoint)
      ensures payload == old(payload) && requestMethod == old(requestMethod) && contentType == old(contentType)
      ensures base64 == old(base64) && httpUser == old(httpUser) && httpPassword == old(httpPassword)
      ensures timeout == old(timeout)
      ensures old(Valid()) ==> Valid()
    {
      this.endpoint := endpoint;
      this.uri := ConstructUri(endpoint);
    }

    /** `setPayload`: the payload is stored escaped, so reading it back gives
      * the text that was set, unless the escaper dropped a character of it. */
    method SetPayload(payload: JString)
      modifies this`payload
      ensures this.payload == Escape(payload)
      ensures old(Valid()) ==> Valid()
      ensures (payload.Str? ==> forall i :: 0 <= i < |payload.chars| ==> !IsDropped(payload.chars[i])) ==>
                GetPayload() == payload
    {
      this.payload := Escape(payload);
      if payload.Str? ==> forall i :: 0 <= i < |payload.chars| ==> !IsDropped(payload.chars[i]) {
        UnescapeEscape(payload);
      }
    }

    method SetMethod(requestMethod: JString)
      modifies this`requestMethod
      ensures this.requestMethod == requestMethod
      ensures old(Valid()) ==> Valid()
    {
      this.requestMethod := requestMethod;
    }

    method SetContentType(contentType: JString)
      modifies this`contentType
      ensures this.contentType == contentType
      ensures old(Valid()) ==> Valid()
    {
      this.contentType := contentType;
    }

    method SetBase64(base64: bool)
      modifies this`base64
      ensures this.base64 == base64
      ensures old(Valid()) ==> Valid()
    {
      this.base64 := base64;
    }

    method SetHttpPassword(httpPassword: JString)
      modifies this`httpPassword
      ensures this.httpPassword == httpPassword
      ensures old(Valid()) ==> Valid()
    {
      this.httpPassword := httpPassword;
    }

    method SetHttpUser(httpUser: JString)
      modifies this`httpUser
      ensures this.httpUser == httpUser
      ensures old(Valid()) ==> Valid()
    {
      this.httpUser := httpUser;
    }

    /** `hashCode()`: the static hash of this bean's getter values. */
    function HashCode(): (r: int32)
      reads this
      ensures r == HashOf(Some(View()))
    {
      HashOf(Some(View()))
    }

    /** `equals(obj)`: false for null and for objects that are not requests,
      * otherwise whether the two requests' hashes agree. */
    function Equals(obj: object?): (r: bool)
      reads this, obj
      ensures obj == null ==> !r
      ensures r <==> obj is RequestBean && HashCode() == (obj as RequestBean).HashCode()
    {
      if obj == null then false
      else obj is RequestBean && HashCode() == HashOf(Some((obj as RequestBean).View()))
    }

    /** Instance `isActionable()`: delegates to the static test on this bean. */
    function IsActionable(): (r: bool)
      reads this
      ensures r == IsActionableRequest(Some(View()))
    {
      IsActionableRequest(Some(View()))
    }

    /** `copy()`: a fresh bean built by the copy constructor. */
    method Copy() returns (c: RequestBean)
      ensures fresh(c) && c.Valid()
      ensures c.Stored() == View()
      ensures c.endpoint == endpoint && c.payload == GetPayload() && c.requestMethod == requestMethod
      ensures c.contentType == contentType && c.base64 == base64
      ensures c.httpUser == httpUser && c.httpPassword == httpPassword
      ensures c.uri == ConstructUri(endpoint) && c.timeout == 0
    {
      c := new RequestBean.FromRequest(this);
    }

    /** The copy as intended: the stored payload is carried over as stored,
      * so the copy reads back the same payload and equals the original. */
    method CopyKeepingPayload() returns (c: RequestBean)
      ensures fresh(c) && c.Valid()
      ensures c.Stored() == Stored() && c.View() == View()
      ensures c.uri == ConstructUri(endpoint) && c.timeout == 0
      ensures Equals(c) && c.Equals(this)
    {
      c := new RequestBean.FromFields(endpoint, payload, requestMethod, contentType, base64, httpUser, httpPassword);
    }

    /** Equality as intended: the other object is a request whose seven getter
      * values are this bean's; it implies equality of the hashes. */
    function EqualsByFields(obj: object?): (r: bool)
      reads this, obj
      ensures obj == null ==> !r
      ensures r <==> obj is RequestBean && (obj as RequestBean).View() == View()
      ensures r ==> Equals(obj)
    {
      obj != null && obj is RequestBean && (obj as RequestBean).View() == View()
    }
  }

  /* ------------------------- properties ------------------------- */

  /** "Aa" and "BB" have the same `String.hashCode`, 2112. */
  lemma {:induction false} HashCollision()
    ensures StringHashCode("Aa") == StringHashCode("BB") == 2112
  {
    assert Utf16("Aa") == [65, 97] by {
      assert "Aa"[1..] == "a";
      assert Utf16("a") == [97] by { assert "a"[1..] == []; }
    }
    assert Utf16("BB") == [66, 66] by {
      assert "BB"[1..] == "B";
      assert Utf16("B") == [66] by { assert "B"[1..] == []; }
    }
    assert PolyHash(0, [65, 97]) == PolyHash(65, [97]) by { assert [65, 97][1..] == [97]; }
    assert PolyHash(65, [97]) == PolyHash(2112, []) by { assert [97][1..] == []; }
    assert PolyHash(0, [66, 66]) == PolyHash(66, [66]) by { assert [66, 66][1..] == [66]; }
    assert PolyHash(66, [66]) == PolyHash(2112, []) by { assert [66][1..] == []; }
  }

  /** In a valid bean the URI is the parse of the endpoint, save for the
    * blank bean of the default constructor, so a URI that is present always
    * carries the endpoint's text. */
  lemma UriFollowsEndpoint(b: RequestBean)
    requires b.Valid()
    ensures b.endpoint != Str("") ==> b.uri == ConstructUri(b.endpoint)
    ensures b.uri.Some? ==> b.endpoint == Str(b.uri.value.text) && ValidUri(b.uri.value.text)
  {
  }

  /** Requests whose stringified getter values agree have the same hash. */
  lemma SameTextsSameHash(f: Fields, g: Fields)
    requires Stringified(f) == Stringified(g)
    ensures HashOf(Some(f)) == HashOf(Some(g))
  {
  }

  /** Two requests that differ in their method, "Aa" against "BB", hash alike,
    * so `equals` holds between them although their fields differ. */
  lemma {:induction false} CollidingMethodsHashAlike(f: Fields)
    ensures f.(requestMethod := Str("Aa")) != f.(requestMethod := Str("BB"))
    ensures HashOf(Some(f.(requestMethod := Str("Aa")))) == HashOf(Some(f.(requestMethod := Str("BB"))))
  {
    var a, b := f.(requestMethod := Str("Aa")), f.(requestMethod := Str("BB"));
    HashCollision();
    var ta, tb := Stringified(a), Stringified(b);
    assert forall i :: 0 <= i < 7 ==> StringHashCode(ta[i]) == StringHashCode(tb[i]);
    assert seq(7, i requires 0 <= i < 7 => StringHashCode(ta[i]))
        == seq(7, i requires 0 <= i < 7 => StringHashCode(tb[i]));
  }

  /** A null endpoint and the endpoint text "null" stringify alike, so the
    * two requests hash alike and compare equal. */
  lemma NullMatchesNullText(f: Fields)
    ensures HashOf(Some(f.(endpoint := Null))) == HashOf(Some(f.(endpoint := Str("null"))))
  {
    SameTextsSameHash(f.(endpoint := Null), f.(endpoint := Str("null")));
  }

  /** `equals` and `hashCode` look only at the seven request fields: beans that
    * store the same fields are equal whatever their URI and timeout. */
  lemma SessionFieldsIgnored(a: RequestBean, b: RequestBean)
    requires a.Stored() == b.Stored()
    ensures a.HashCode() == b.HashCode()
    ensures a.Equals(b) && b.Equals(a)
  {
  }

  /** A copy compares equal to its original whenever unescaping the
    * original's decoded payload leaves it unchanged. */
  lemma CopyEqualWhenPayloadStable(stored: Fields)
    requires Unescape(Unescape(stored.payload)) == Unescape(stored.payload)
    ensures GetterValues(GetterValues(stored)) == GetterValues(stored)
    ensures HashOf(Some(GetterValues(GetterValues(stored)))) == HashOf(Some(GetterValues(stored)))
  {
  }

  /** After `setPayload("&lt;")` a bean reads back "&lt;", but its copy stores
    * that decoded text and reads back "<": the copy decodes a second time. */
  lemma {:induction false} CopyDecodesTwice(stored: Fields)
    requires stored.payload == Escape(Str("&lt;"))
    ensures GetterValues(stored).payload == Str("&lt;")
    ensures GetterValues(GetterValues(stored)).payload == Str("<")
    ensures GetterValues(GetterValues(stored)) != GetterValues(stored)
  {
    var text := "&lt;";
    UnescapeEscape(Str(text));
    assert EntityAt(text) == Some(('<', 4)) by { assert text[..4] == "&lt;"; }
    assert UnescapeChars(text) == "<" by {
      assert text[4..] == [];
    }
  }

  /** The same happens to a numeric character reference: after
    * `setPayload("&#60;")` the bean reads back "&#60;" and its copy "<". */
  lemma {:induction false} CopyDecodesNumericReference(stored: Fields)
    requires stored.payload == Escape(Str("&#60;"))
    ensures GetterValues(stored).payload == Str("&#60;")
    ensures GetterValues(GetterValues(stored)).payload == Str("<")
  {
    UnescapeEscape(Str("&#60;"));
    DecimalReferenceDecoded();
  }

  /** The blank bean of the default constructor is not actionable. */
  lemma BlankNotActionable()
    ensures !IsActionableRequest(Some(Fields(Str(""), Str(""), Str(""), Str(""), false, Str(""), Str(""))))
  {
  }

  /** A method made of whitespace only makes a request not actionable. */
  lemma {:induction false} WhitespaceMethodNotActionable(f: Fields)
    requires f.requestMethod == Str(" \t")
    ensures !IsActionableRequest(Some(f))
  {
    assert !HasVisibleText(f.requestMethod.chars) by {
      forall i | 0 <= i < 2 ensures IsJavaWhitespace(" \t"[i]) {
        if i == 1 { assert " \t"[i] == '\t'; }
      }
    }
  }

  /** A GET of a text/plain resource is actionable. */
  lemma {:induction false} GetIsActionable(f: Fields)
    requires f.endpoint == Str("http://example.test/x")
    requires f.requestMethod == Str("GET") && f.contentType == Str("text/plain")
    ensures IsActionableRequest(Some(f))
  {
    assert !IsJavaWhitespace(f.endpoint.chars[0]);
    assert !IsJavaWhitespace(f.requestMethod.chars[0]);
    assert !IsJavaWhitespace(f.contentType.chars[0]);
  }
}
