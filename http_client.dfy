/** The part of HttpClient (src/hamming/http_client.py) with logic in it: the base-URL
    sanitiser `url.strip().rstrip("/")` and the concatenation that builds a request URL. */
module Http {

  /** The characters Python's str.strip() removes when called without arguments:
      the Unicode whitespace of str.isspace(). */
  predicate IsSpace(c: char)
  {
    var n := c as int;
    || 0x09 <= n <= 0x0D
    || 0x1C <= n <= 0x20
    || n == 0x85 || n == 0xA0 || n == 0x1680
    || 0x2000 <= n <= 0x200A
    || n == 0x2028 || n == 0x2029 || n == 0x202F || n == 0x205F || n == 0x3000
  }

  predicate IsSlash(c: char)
  {
    c == '/'
  }

  /** Drops the characters satisfying `drop` from the start of `s`: what remains is a
      suffix of `s` that does not start with such a character, and every dropped
      character satisfies `drop`. */
  function TrimStart(s: string, drop: char -> bool): (r: string)
    ensures |r| <= |s| && r == s[|s| - |r|..]
    ensures forall k :: 0 <= k < |s| - |r| ==> drop(s[k])
    ensures r == [] || !drop(r[0])
    decreases |s|
  {
    if s != [] && drop(s[0]) then TrimStart(s[1..], drop) else s
  }

  /** Drops the characters satisfying `drop` from the end of `s`: what remains is a
      prefix of `s` that does not end with such a character, and every dropped
      character satisfies `drop`. */
  function TrimEnd(s: string, drop: char -> bool): (r: string)
    ensures |r| <= |s| && r == s[..|r|]
    ensures forall k :: |r| <= k < |s| ==> drop(s[k])
    ensures r == [] || !drop(r[|r| - 1])
    decreases |s|
  {
    if s != [] && drop(s[|s| - 1]) then TrimEnd(s[..|s| - 1], drop) else s
  }

  /** str.strip(): what remains neither starts nor ends with whitespace. */
  function Strip(s: string): (r: string)
    ensures |r| <= |s|
    ensures r == [] || (!IsSpace(r[0]) && !IsSpace(r[|r| - 1]))
  {
    TrimEnd(TrimStart(s, IsSpace), IsSpace)
  }

  /** HttpClient.sanitize_base_url: a prefix of the stripped URL, of which only
      slashes are cut off, that does not itself end with a slash. */
  function Sanitize(url: string): (r: string)
    ensures |r| <= |Strip(url)| && r == Strip(url)[..|r|]
    ensures forall k :: |r| <= k < |Strip(url)| ==> Strip(url)[k] == '/'
    ensures r == [] || r[|r| - 1] != '/'
  {
    TrimEnd(Strip(url), IsSlash)
  }

  /** strip() keeps a contiguous middle part of its input, starting after the leading
      whitespace, and drops only whitespace around it. */
  lemma StripKeepsMiddle(s: string)
    ensures var i, r := |s| - |TrimStart(s, IsSpace)|, Strip(s);
      && i + |r| <= |s| && r == s[i..i + |r|]
      && (forall k :: 0 <= k < i ==> IsSpace(s[k]))
      && (forall k :: i + |r| <= k < |s| ==> IsSpace(s[k]))
  {
    var t := TrimStart(s, IsSpace);
    var r := TrimEnd(t, IsSpace);
    var i := |s| - |t|;
    assert t == s[i..];
    assert r == t[..|r|];
    assert s[i..][..|r|] == s[i..i + |r|];
    forall k | i + |r| <= k < |s| ensures IsSpace(s[k]) {
      assert s[k] == t[k - i];
      assert |r| <= k - i < |t|;
    }
  }

  /** A trailing whitespace character is always removed by strip(). */
  lemma StripDropsTrailingSpace(s: string)
    ensures s != [] && IsSpace(s[|s| - 1]) ==> |Strip(s)| < |s|
  {
    var t := TrimStart(s, IsSpace);
    if t != [] {
      assert t[|t| - 1] == s[|s| - 1];
    }
  }

  /** The sanitised URL never begins with whitespace. */
  lemma SanitizeNoLeadingSpace(url: string)
    ensures var r := Sanitize(url); r == [] || !IsSpace(r[0])
  {
    var t := Strip(url);
    var r := Sanitize(url);
    if r != [] {
      assert r[0] == t[0];
    }
  }

  /** The contract of Sanitize determines its result: the sanitised URL is the one
      prefix of the stripped URL that is followed only by slashes and does not itself
      end in one. */
  lemma SanitizeUnique(url: string, r: string)
    requires |r| <= |Strip(url)| && r == Strip(url)[..|r|]
    requires forall k :: |r| <= k < |Strip(url)| ==> Strip(url)[k] == '/'
    requires r == [] || r[|r| - 1] != '/'
    ensures r == Sanitize(url)
  {
    var t := Strip(url);
    var s := Sanitize(url);
    assert s != [] ==> s[|s| - 1] == t[|s| - 1];
    assert r != [] ==> r[|r| - 1] == t[|r| - 1];
    assert |r| == |s|;
  }

  /** A URL is returned unchanged exactly when it is empty, or neither starts nor ends
      with whitespace and does not end with a slash. */
  predicate IsClean(url: string)
  {
    url == [] || (!IsSpace(url[0]) && !IsSpace(url[|url| - 1]) && url[|url| - 1] != '/')
  }

  lemma SanitizeFixedPoint(url: string)
    ensures Sanitize(url) == url <==> IsClean(url)
  {
    var t := TrimStart(url, IsSpace);
    var u := TrimEnd(t, IsSpace);
    if IsClean(url) && url != [] {
      assert t == url;
      assert u == url;
      assert TrimEnd(u, IsSlash) == url;
    }
    SanitizeNoLeadingSpace(url);
    StripDropsTrailingSpace(url);
  }

  /** "a /" loses its slash but keeps the space that preceded it. */
  lemma SanitizeSpaceSlash()
    ensures Sanitize("a /") == "a "
  {
    assert !IsSpace('a') && !IsSpace('/');
    assert "a /"[..2] == "a ";
    assert TrimStart("a /", IsSpace) == "a /";
    assert TrimEnd("a /", IsSpace) == "a /";
    assert TrimEnd("a ", IsSlash) == "a ";
    assert TrimEnd("a /", IsSlash) == "a ";
  }

  /** "a " loses its trailing space. */
  lemma SanitizeTrailingSpace()
    ensures Sanitize("a ") == "a"
  {
    assert !IsSpace('a') && IsSpace(' ');
    assert "a "[..1] == "a";
    assert TrimStart("a ", IsSpace) == "a ";
    assert TrimEnd("a", IsSpace) == "a";
    assert TrimEnd("a ", IsSpace) == "a";
    assert TrimEnd("a", IsSlash) == "a";
  }

  /** Sanitising is not idempotent: a slash is cut after whitespace is, so "a /"
      becomes "a ", which a second pass turns into "a". */
  lemma SanitizeNotIdempotent()
    ensures Sanitize(Sanitize("a /")) != Sanitize("a /")
  {
    SanitizeSpaceSlash();
    SanitizeTrailingSpace();
  }

  /** HttpClientOptions (src/hamming/types.py) */
  datatype HttpClientOptions = HttpClientOptions(apiKey: string, baseUrl: string)

  /** What `request` hands to the HTTP library: method, target URL and headers. */
  datatype HttpRequest = HttpRequest(verb: string, url: string, headers: seq<(string, string)>)

  class HttpClient {
    const apiKey: string
    const baseUrl: string

    /** __init__ stores the sanitised base URL. */
    constructor (config: HttpClientOptions)
      ensures apiKey == config.apiKey
      ensures baseUrl == Sanitize(config.baseUrl)
    {
      apiKey := config.apiKey;
      baseUrl := Sanitize(config.baseUrl);
    }

    /** request: the target is exactly the base URL followed by the given path, with
        no further normalisation, and the key goes in a bearer header. */
    method Request(verb: string, url: string) returns (req: HttpRequest)
      ensures req.verb == verb
      ensures |req.url| == |baseUrl| + |url|
      ensures req.url[..|baseUrl|] == baseUrl && req.url[|baseUrl|..] == url
      ensures req.headers == [("Content-Type", "application/json"), ("Authorization", "Bearer " + apiKey)]
    {
      req := HttpRequest(verb, baseUrl + url,
                         [("Content-Type", "application/json"), ("Authorization", "Bearer " + apiKey)]);
    }
  }

  /** Joining a sanitised base URL to a path that starts with a slash puts exactly one
      slash at the seam unless the path itself brings more. */
  lemma JoinSeam(base: string, path: string)
    requires |path| > 0 && path[0] == '/'
    ensures var b := Sanitize(base); var u := b + path;
      u[|b|] == '/' && (|b| == 0 || u[|b| - 1] != '/')
  {
  }
}
