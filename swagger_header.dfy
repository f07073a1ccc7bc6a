/**
 * The `from-swagger-ui` marker: a request whose `Referer` points at the Swagger UI page
 * gets the marker header added, and handlers that see the marker shorten their answers.
 *
 * Header values are bytes. Header names are kept lower-case, as the HTTP library stores
 * them, so a lookup of "Referer" is a lookup of "referer".
 */
module SwaggerHeader {
  import opened Wrappers
  import Settings

  type Byte = b: int | 0 <= b < 256
  type HeaderValue = seq<Byte>
  /** Header name -> its values, in order. */
  type HeaderMap = map<string, seq<HeaderValue>>

  const RefererHeader: string := "referer"
  const FromSwaggerUiHeader: string := "from-swagger-ui"

  datatype HeaderError = InvalidHeader

  /** The marker itself carries no data. */
  datatype FromSwaggerUi = FromSwaggerUi

  /** Bytes a header value may hold and still read as text: tab and visible ASCII. */
  predicate IsVisibleAscii(b: Byte)
  {
    b == 9 || 32 <= b < 127
  }

  /** `HeaderValue::to_str`: the value as text, when every byte is visible ASCII or tab. */
  function ToStr(v: HeaderValue): (r: Option<string>)
    ensures r.Some? <==> forall i :: 0 <= i < |v| ==> IsVisibleAscii(v[i])
    ensures r.Some? ==> |r.value| == |v| && forall i :: 0 <= i < |v| ==> r.value[i] as int == v[i]
  {
    if forall i | 0 <= i < |v| :: IsVisibleAscii(v[i])
    then Some(seq(|v|, i requires 0 <= i < |v| => v[i] as char))
    else None
  }

  /** The first value of a header, if the header is present. */
  function HeaderGet(headers: HeaderMap, name: string): Option<HeaderValue>
  {
    if name in headers && |headers[name]| > 0 then Some(headers[name][0]) else None
  }

  /** `trim_end_matches(c)`: drop every trailing `c`. */
  function TrimEnd(s: string, c: char): (r: string)
    ensures |r| <= |s| && r == s[..|r|]
    ensures r == [] || r[|r| - 1] != c
    ensures forall i :: |r| <= i < |s| ==> s[i] == c
  {
    if |s| > 0 && s[|s| - 1] == c then TrimEnd(s[..|s| - 1], c) else s
  }

  /** `trim_start_matches(c)`: drop every leading `c`. */
  function TrimStart(s: string, c: char): (r: string)
    ensures |r| <= |s| && r == s[|s| - |r|..]
    ensures r == [] || r[0] != c
    ensures forall i :: 0 <= i < |s| - |r| ==> s[i] == c
  {
    if |s| > 0 && s[0] == c then TrimStart(s[1..], c) else s
  }

  /** `trim_matches(c)`: drop every leading and every trailing `c`. */
  function Trim(s: string, c: char): (r: string)
    ensures |r| <= |s|
    ensures r == [] || (r[0] != c && r[|r| - 1] != c)
    ensures exists i, j :: 0 <= i <= j <= |s| && r == s[i..j] && OnlyCOutside(s, i, j, c)
  {
    TrimCutsOnlyC(s, c);
    TrimStart(TrimEnd(s, c), c)
  }

  /** Every character of `s` outside `s[i..j]` is `c`. */
  predicate OnlyCOutside(s: string, i: int, j: int, c: char)
  {
    forall k :: 0 <= k < |s| && (k < i || j <= k) ==> s[k] == c
  }

  /** Trimming both ends keeps a slice of `s` without `c` at either end, and cuts off only `c`. */
  lemma TrimCutsOnlyC(s: string, c: char)
    ensures var e := TrimEnd(s, c);
      var r := TrimStart(e, c);
      && |r| <= |s|
      && (r == [] || (r[0] != c && r[|r| - 1] != c))
      && 0 <= |e| - |r| <= |e| <= |s|
      && r == s[|e| - |r|..|e|]
      && OnlyCOutside(s, |e| - |r|, |e|, c)
  {
    var e := TrimEnd(s, c);
    SuffixOfPrefix(s, e, TrimStart(e, c), c);
  }

  /** A suffix `r` of a prefix `e` of `s` is a slice of `s`, cut out of `c`s on both sides. */
  lemma SuffixOfPrefix(s: string, e: string, r: string, c: char)
    requires |e| <= |s| && e == s[..|e|]
    requires |r| <= |e| && r == e[|e| - |r|..]
    requires forall i :: |e| <= i < |s| ==> s[i] == c
    requires forall i :: 0 <= i < |e| - |r| ==> e[i] == c
    ensures r != [] ==> r[|r| - 1] == e[|e| - 1]
    ensures r == s[|e| - |r|..|e|]
    ensures OnlyCOutside(s, |e| - |r|, |e|, c)
  {
    forall k | 0 <= k < |e| - |r| ensures s[k] == c {
      assert s[k] == e[k];
    }
  }

  predicate EndsWith(s: string, suffix: string)
  {
    |suffix| <= |s| && s[|s| - |suffix|..] == suffix
  }

  /**
   * The referer test: with its trailing slashes removed, the referer ends with the Swagger UI
   * path stripped of its slashes. This is a plain suffix test.
   */
  predicate RefererMatches(referer: string, swaggerUiUrl: string)
  {
    EndsWith(TrimEnd(referer, '/'), Trim(swaggerUiUrl, '/'))
  }

  /** Whether `set_swagger_ui_header` marks a request with these headers. */
  predicate MarksSwaggerUi(headers: HeaderMap, swaggerUiUrl: string)
  {
    var referer := HeaderGet(headers, RefererHeader);
    referer.Some? && ToStr(referer.value).Some? && RefererMatches(ToStr(referer.value).value, swaggerUiUrl)
  }

  /** `FromSwaggerUi::decode`: succeeds when at least one value is present, whatever it holds. */
  function Decode(values: seq<HeaderValue>): (r: Result<FromSwaggerUi, HeaderError>)
    ensures r.Ok? <==> |values| >= 1
  {
    if |values| >= 1 then Ok(FromSwaggerUi) else Err(InvalidHeader)
  }

  /** `FromSwaggerUi::encode`: extends the values with exactly one empty value. */
  function Encode(values: seq<HeaderValue>): (r: seq<HeaderValue>)
    ensures |r| == |values| + 1 && r[..|values|] == values && r[|values|] == []
  {
    values + [[]]
  }

  /** Encoding the marker then decoding it gives the marker back. */
  lemma DecodeEncode(values: seq<HeaderValue>)
    ensures Decode(Encode(values)) == Ok(FromSwaggerUi)
  {
  }

  /** Whether a handler's optional typed marker header is present, as the extractor reads it. */
  predicate FromSwaggerUiPresent(headers: HeaderMap)
  {
    FromSwaggerUiHeader in headers && Decode(headers[FromSwaggerUiHeader]).Ok?
  }

  /** The headers after `set_swagger_ui_header`: the marker inserted, or nothing changed. */
  function WithSwaggerUiMarker(headers: HeaderMap, swaggerUiUrl: string): (h: HeaderMap)
    ensures forall name :: name != FromSwaggerUiHeader ==> (name in h <==> name in headers)
    ensures forall name :: name in headers && name != FromSwaggerUiHeader ==> h[name] == headers[name]
    ensures MarksSwaggerUi(headers, swaggerUiUrl) ==> FromSwaggerUiPresent(h)
    ensures !MarksSwaggerUi(headers, swaggerUiUrl) ==> h == headers
  {
    if MarksSwaggerUi(headers, swaggerUiUrl) then headers[FromSwaggerUiHeader := Encode([])] else headers
  }

  /** An HTTP request; only its header map is ever changed here. */
  class Request {
    const httpMethod: string
    const uri: string
    var headers: HeaderMap
    const body: seq<Byte>

    constructor (httpMethod: string, uri: string, headers: HeaderMap, body: seq<Byte>)
      ensures this.httpMethod == httpMethod && this.uri == uri
      ensures this.headers == headers && this.body == body
    {
      this.httpMethod := httpMethod;
      this.uri := uri;
      this.headers := headers;
      this.body := body;
    }
  }

  /**
   * `set_swagger_ui_header`: insert the marker into the request's headers exactly when
   * its referer matches; the rest of the request is untouched.
   */
  method SetSwaggerUiHeader(swaggerUiUrl: string, request: Request)
    modifies request`headers
    ensures request.headers == WithSwaggerUiMarker(old(request.headers), swaggerUiUrl)
  {
    var referer := HeaderGet(request.headers, RefererHeader);
    if referer.Some? {
      var text := ToStr(referer.value);
      if text.Some? && RefererMatches(text.value, swaggerUiUrl) {
        request.headers := request.headers[FromSwaggerUiHeader := Encode([])];
      }
    }
  }

  /** One more trailing `c` is trimmed away. */
  lemma {:induction false} TrimEndIgnoresTrailing(s: string, c: char)
    ensures TrimEnd(s + [c], c) == TrimEnd(s, c)
  {
    assert (s + [c])[..|s|] == s;
  }

  /** Trailing slashes on the referer never change the outcome. */
  lemma {:induction false} TrailingSlashesIgnored(referer: string, slashes: nat, swaggerUiUrl: string)
    ensures RefererMatches(referer + seq(slashes, _ => '/'), swaggerUiUrl) == RefererMatches(referer, swaggerUiUrl)
    decreases slashes
  {
    if slashes > 0 {
      var fewer := referer + seq(slashes - 1, _ => '/');
      assert referer + seq(slashes, _ => '/') == fewer + ['/'];
      TrimEndIgnoresTrailing(fewer, '/');
      TrailingSlashesIgnored(referer, slashes - 1, swaggerUiUrl);
    } else {
      assert referer + seq(slashes, _ => '/') == referer;
    }
  }

  /**
   * The test does not respect path segments: a page whose path only ends in the same
   * letters as the Swagger UI path counts as the Swagger UI.
   */
  lemma SuffixWithoutSegmentBoundary()
    ensures RefererMatches("/xswagger/", "/swagger")
  {
    var referer := "/xswagger/";
    var trimmed := "/xswagger";
    assert referer[..|referer| - 1] == trimmed;
    assert TrimEnd(referer, '/') == TrimEnd(trimmed, '/');
    assert TrimEnd(referer, '/') == trimmed;
    var url := "/swagger";
    assert TrimEnd(url, '/') == url;
    assert url[1..] == "swagger";
    assert TrimStart(url, '/') == TrimStart("swagger", '/') == "swagger";
    assert Trim(url, '/') == "swagger";
    assert trimmed[|trimmed| - 7..] == "swagger";
  }

  /**
   * The marker is honoured whatever put it there: a request that arrives already carrying a
   * `from-swagger-ui` value is treated as coming from the Swagger UI, referer or not.
   */
  lemma ClientMarkerIsKept(headers: HeaderMap, swaggerUiUrl: string)
    requires FromSwaggerUiHeader in headers && |headers[FromSwaggerUiHeader]| >= 1
    ensures FromSwaggerUiPresent(WithSwaggerUiMarker(headers, swaggerUiUrl))
  {
  }

  /**
   * A Swagger UI path of slashes only, such as "//", passes the path validator, trims to
   * nothing, and then every referer that reads as text matches it.
   */
  lemma SlashesOnlyPathMatchesEveryReferer(referer: string)
    ensures Settings.CheckUrl("//").Ok?
    ensures RefererMatches(referer, "//")
  {
    var url := "//";
    assert url[..|url| - 1] == "/" && "/"[..0] == [];
    assert TrimEnd(url, '/') == [];
    assert Trim(url, '/') == [];
    var t := TrimEnd(referer, '/');
    assert t[|t|..] == [];
  }
}
