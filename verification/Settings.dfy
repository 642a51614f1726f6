/** The configuration values that the login protocol reads, and the URL codec it calls. */
module Settings {
  import opened Basics

  /**
   * A parsed URL. One like "app:8080/cb", whose scheme no slash follows, has all of the rest in `opaquePart` and neither
   * host nor path. A `bare` one is written without "//" in front of its path: it has neither host nor user, and no scheme
   * or one that a single slash follows. `rest` holds the parts no handler touches (user, fragment).
   */
  datatype Url = Url(
    scheme: string,
    host: string,
    opaquePart: string,
    bare: bool,
    path: string,
    query: map<string, seq<string>>,
    rest: string)

  /** `url.Parse` may fail; `URL.String` always renders. */
  datatype UrlCodec = UrlCodec(parse: string -> Option<Url>, render: Url -> string)

  datatype Config = Config(
    sessionTimeout: int,
    requiresTOS: bool,
    tosEndpoint: string,
    requiresRole: bool,
    codeGrant: bool,
    iamGrant: bool,
    pfasGrant: bool,
    codec: UrlCodec,
    hash: string -> string)

  /** The configuration validator demands a positive timeout. */
  predicate Sound(cfg: Config) {
    cfg.sessionTimeout > 0
  }

  const AUTH_DONE := "/auth-done"

  function WithPath(u: Url, p: string): Url {
    u.(path := p, query := map[])
  }

  /** `q.Set`: one value, replacing any earlier ones. */
  function SetParam(u: Url, key: string, value: string): Url {
    u.(query := u.query[key := [value]])
  }

  /** The configured endpoint with its default and its single leading slash. */
  function Endpoint(endpoint: string): string {
    var e := if endpoint == "" then "/terms-of-service" else endpoint;
    if e[0] == '/' then e else "/" + e
  }

  /** The path of the terms page for a redirect URI with path `path`. */
  function TermsPath(path: string, endpoint: string): string {
    if HasSuffix(path, AUTH_DONE) then TrimSuffix(path, AUTH_DONE) + Endpoint(endpoint)
    else Endpoint(endpoint)
  }

  /** The endpoint, case by case: its default, a leading slash if it has none, and "/auth-done" as the part it replaces. */
  lemma TermsPathIs(prefix: string, path: string, endpoint: string)
    ensures Endpoint("") == "/terms-of-service"
    ensures endpoint != "" && endpoint[0] == '/' ==> Endpoint(endpoint) == endpoint
    ensures endpoint != "" && endpoint[0] != '/' ==> Endpoint(endpoint) == "/" + endpoint
    ensures TermsPath(prefix + "/auth-done", endpoint) == prefix + Endpoint(endpoint)
    ensures (forall p: string :: path != p + "/auth-done") ==> TermsPath(path, endpoint) == Endpoint(endpoint)
  {
    var done := prefix + "/auth-done";
    assert done[|done| - 10..] == "/auth-done" && done[..|done| - 10] == prefix;
    if HasSuffix(path, AUTH_DONE) {
      assert path == path[..|path| - 10] + "/auth-done";
    }
  }

  function BuildTOSRedirect(cfg: Config, original: string): Option<string> {
    match cfg.codec.parse(original)
    case None => None
    case Some(u) => Some(cfg.codec.render(WithPath(u, TermsPath(u.path, cfg.tosEndpoint))))
  }

  // ---------------------------------------------------------------- what is assumed of the codec

  /** The part of `s` in front of its first slash. */
  function BeforeSlash(s: string): (r: string)
    ensures r <= s && '/' !in r
    ensures |r| < |s| ==> s[|r|] == '/'
  {
    if s == "" || s[0] == '/' then "" else [s[0]] + BeforeSlash(s[1..])
  }

  /**
   * A path that is read back as that path. Behind "//" every path is. A bare path is not if it starts with two slashes,
   * which introduce a host, unless there are three and no scheme, nor if its first segment has a colon.
   */
  predicate Anchored(u: Url, path: string) {
    && u.opaquePart == ""
    && (|| !u.bare
        || (!HasPrefix(path, "//") && ':' !in BeforeSlash(path))
        || (u.scheme == "" && HasPrefix(path, "///")))
  }

  /** Rendering with another path: it is read back exactly where it is anchored, and ignored by an opaque URL. */
  predicate Rereads(codec: UrlCodec, u: Url, path: string) {
    var page := codec.render(WithPath(u, path));
    && page != ""
    && if u.opaquePart != "" then codec.parse(page) == Some(WithPath(u, u.path))
       else codec.parse(page) == Some(WithPath(u, path)) <==> Anchored(u, path)
  }

  /** How net/url treats the terms page of every parsable URL, whatever the endpoint. */
  ghost predicate Reparses(codec: UrlCodec) {
    forall s: string, e: string :: codec.parse(s).Some? ==>
      Rereads(codec, codec.parse(s).value, TermsPath(codec.parse(s).value.path, e))
  }

  /**
   * The terms page exists exactly for parsable URIs. It keeps the origin and the path prefix in front of "/auth-done" and
   * leads to the endpoint exactly when it is anchored; for an opaque URI it is that URI without its query.
   */
  lemma TermsPageKeepsOrigin(cfg: Config, original: string)
    ensures BuildTOSRedirect(cfg, original).Some? <==> cfg.codec.parse(original).Some?
    ensures forall prefix :: TermsPath(prefix + AUTH_DONE, cfg.tosEndpoint) == prefix + Endpoint(cfg.tosEndpoint)
    ensures Reparses(cfg.codec) && cfg.codec.parse(original).Some? ==>
      var u := cfg.codec.parse(original).value;
      var page := BuildTOSRedirect(cfg, original).value;
      var path := TermsPath(u.path, cfg.tosEndpoint);
      && page != ""
      && if u.opaquePart != "" then cfg.codec.parse(page) == Some(WithPath(u, u.path))
         else cfg.codec.parse(page) == Some(WithPath(u, path)) <==> Anchored(u, path)
  {
    forall prefix: string ensures TermsPath(prefix + AUTH_DONE, cfg.tosEndpoint) == prefix + Endpoint(cfg.tosEndpoint) {
      var path := prefix + AUTH_DONE;
      assert path[|path| - |AUTH_DONE|..] == AUTH_DONE;
      assert path[..|path| - |AUTH_DONE|] == prefix;
    }
    if Reparses(cfg.codec) && cfg.codec.parse(original).Some? {
      var u := cfg.codec.parse(original).value;
      assert Rereads(cfg.codec, u, TermsPath(u.path, cfg.tosEndpoint));
    }
  }

  // ---------------------------------------------------------------- a codec that meets the assumption

  /** A fragment of the URL syntax, without escapes, queries and fragments. */
  function ParsePlain(s: string): Option<Url> {
    if HasPrefix(s, "https://") then
      var host := BeforeSlash(s[8..]);
      Some(Url("https", host, "", false, s[8 + |host|..], map[], ""))
    else if HasPrefix(s, "//") && !HasPrefix(s, "///") then
      var host := BeforeSlash(s[2..]);
      Some(Url("", host, "", host == "", s[2 + |host|..], map[], ""))
    else if HasPrefix(s, "app:") && |s| > 4 && s[4] != '/' then Some(Url("app", "", s[4..], false, "", map[], ""))
    else if s != "" && ':' !in BeforeSlash(s) then Some(Url("", "", "", true, s, map[], ""))
    else None
  }

  function RenderPlain(u: Url): string {
    if u.opaquePart != "" then u.scheme + ":" + u.opaquePart
    else if u.bare then (if ':' in BeforeSlash(u.path) then "./" + u.path else u.path)
    else if u.scheme == "" then "//" + u.host + u.path
    else u.scheme + "://" + u.host + u.path
  }

  const PLAIN_CODEC := UrlCodec((s: string) => ParsePlain(s), (u: Url) => RenderPlain(u))

  lemma {:induction false} HostIsBeforeSlash(host: string, path: string)
    requires '/' !in host && HasPrefix(path, "/")
    ensures BeforeSlash(host + path) == host
  {
    if host == "" {
      assert host + path == path;
    } else {
      assert (host + path)[1..] == host[1..] + path;
      assert (host + path)[0] == host[0];
      HostIsBeforeSlash(host[1..], path);
    }
  }

  lemma TermsPathIsRooted(path: string, endpoint: string)
    ensures TermsPath(path, endpoint) != ""
    ensures path == "" || path[0] == '/' ==> HasPrefix(TermsPath(path, endpoint), "/")
  {
    if HasSuffix(path, AUTH_DONE) && |path| > |AUTH_DONE| {
      assert TrimSuffix(path, AUTH_DONE)[0] == path[0];
    }
  }

  /** The assumption can be met by a codec that knows hosts, opaque URLs and bare paths. */
  lemma PlainCodecReparses()
    ensures Reparses(PLAIN_CODEC)
    ensures PLAIN_CODEC.parse("https://app/cb") == Some(Url("https", "app", "", false, "/cb", map[], ""))
  {
    hide ParsePlain;
    forall s: string, e: string | ParsePlain(s).Some?
      ensures Rereads(PLAIN_CODEC, ParsePlain(s).value, TermsPath(ParsePlain(s).value.path, e))
    {
      PlainRereads(s, TermsPath(ParsePlain(s).value.path, e), e);
    }
    HttpsRereads("app", "/cb");
    assert "https://" + ("app" + "/cb") == "https://app/cb";
  }

  lemma PlainRereads(s: string, path: string, e: string)
    requires ParsePlain(s).Some? && path == TermsPath(ParsePlain(s).value.path, e)
    ensures Rereads(PLAIN_CODEC, ParsePlain(s).value, path)
  {
    hide ParsePlain, RenderPlain, TermsPath;
    var u := ParsePlain(s).value;
    ParsedShape(s);
    TermsPathIsRooted(u.path, e);
    if u.opaquePart != "" {
      OpaqueRereads(u.opaquePart, path);
    } else if u.bare {
      BareRereads(path);
    } else {
      AuthorityRereads(u.scheme, u.host, path);
    }
  }

  lemma ParsedShape(s: string)
    requires ParsePlain(s).Some?
    ensures
      var u := ParsePlain(s).value;
      && u.query == map[] && u.rest == ""
      && (u.opaquePart != "" ==> u == Url("app", "", u.opaquePart, false, "", map[], "") && u.opaquePart[0] != '/')
      && (u.opaquePart == "" && u.bare ==> u.scheme == "" && u.host == "")
      && (u.opaquePart == "" && !u.bare ==>
            && (u.scheme == "https" || (u.scheme == "" && u.host != ""))
            && '/' !in u.host && (u.path == "" || u.path[0] == '/'))
  {
  }

  lemma OpaqueRereads(part: string, path: string)
    requires part != "" && part[0] != '/'
    ensures RenderPlain(Url("app", "", part, false, path, map[], "")) == "app:" + part != ""
    ensures ParsePlain(RenderPlain(Url("app", "", part, false, path, map[], ""))) == Some(Url("app", "", part, false, "", map[], ""))
  {
    var page := "app:" + part;
    assert "app" + ":" + part == page;
    assert page[0] == 'a' && page[4] == part[0] && page[4..] == part;
    assert HasPrefix(page, "app:") && !HasPrefix(page, "https://") && !HasPrefix(page, "/");
  }

  lemma AuthorityRereads(scheme: string, host: string, path: string)
    requires scheme == "https" || (scheme == "" && host != "")
    requires '/' !in host && HasPrefix(path, "/")
    ensures RenderPlain(Url(scheme, host, "", false, path, map[], "")) != ""
    ensures ParsePlain(RenderPlain(Url(scheme, host, "", false, path, map[], "")))
         == Some(Url(scheme, host, "", false, path, map[], ""))
  {
    hide ParsePlain;
    if scheme != "" {
      HttpsRereads(host, path);
      assert "https" + "://" + host + path == "https://" + (host + path);
    } else {
      HostRereads(host, path);
      assert "//" + host + path == "//" + (host + path);
    }
  }

  lemma HttpsRereads(host: string, path: string)
    requires '/' !in host && HasPrefix(path, "/")
    ensures ParsePlain("https://" + (host + path)) == Some(Url("https", host, "", false, path, map[], ""))
  {
    HostIsBeforeSlash(host, path);
    var page := "https://" + (host + path);
    assert page[8..] == host + path && page[8 + |host|..] == path;
  }

  lemma HostRereads(host: string, path: string)
    requires host != "" && '/' !in host && HasPrefix(path, "/")
    ensures ParsePlain("//" + (host + path)) == Some(Url("", host, "", false, path, map[], ""))
  {
    HostIsBeforeSlash(host, path);
    var page := "//" + (host + path);
    assert page[2..] == host + path && page[2 + |host|..] == path;
    assert page[0] == '/' && page[2] == host[0] && host[0] in host;
  }

  /** A bare path is read back exactly when it is anchored. */
  lemma BareRereads(path: string)
    requires path != ""
    ensures
      var u := Url("", "", "", true, path, map[], "");
      RenderPlain(u) != "" && (ParsePlain(RenderPlain(u)) == Some(u) <==> Anchored(u, path))
  {
    if ':' in BeforeSlash(path) {
      var page := "./" + path;
      assert page[0] == '.' && |page| == |path| + 2;
    } else if HasPrefix(path, "//") && !HasPrefix(path, "///") {
      var host := BeforeSlash(path[2..]);
      assert |path[2 + |host|..]| < |path|;
    } else {
      NoColonNoScheme(path);
    }
  }

  /** Without a colon in its first segment a path has no scheme. */
  lemma NoColonNoScheme(path: string)
    requires path != "" && ':' !in BeforeSlash(path)
    ensures !HasPrefix(path, "https://") && !HasPrefix(path, "app:")
  {
    if HasPrefix(path, "https://") {
      ColonInFirst(path, "https:");
    }
    if HasPrefix(path, "app:") {
      ColonInFirst(path, "app:");
    }
  }

  lemma {:induction false} ColonInFirst(path: string, prefix: string)
    requires prefix <= path && '/' !in prefix && ':' in prefix
    ensures ':' in BeforeSlash(path)
  {
    assert path[0] == prefix[0] && prefix[0] in prefix;
    if prefix[0] != ':' {
      assert prefix == [prefix[0]] + prefix[1..];
      assert path[1..][..|prefix| - 1] == prefix[1..];
      ColonInFirst(path[1..], prefix[1..]);
    }
  }
}
