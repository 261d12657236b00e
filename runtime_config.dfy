/** Runtime configuration (public/assets/js/core/config.js): each setting is
    taken from the URL query, then the global `APP_CONFIG` object, then the
    built-in defaults; the API base URL loses its trailing slashes, the two
    flags are parsed leniently, endpoints are merged key by key and missing
    settings produce warnings. The query string, the global object and the
    page location are parameters. */
module RuntimeConfig {

  import opened Js
  import opened AppConfig

  const TrueWords: set<string> := {"1", "true", "yes", "y"}
  const FalseWords: set<string> := {"0", "false", "no", "n"}

  const MissingLiffIdWarning := "ขาด LIFF ID: ตั้งค่า window.APP_CONFIG.liffId หรือใส่ ?liffId="
  const MissingApiBaseUrlWarning := "ขาด API Base URL: ตั้งค่า window.APP_CONFIG.apiBaseUrl หรือใส่ ?apiBaseUrl="

  /** `String(value).trim().toLowerCase()` */
  function Normalized(v: Value): string {
    ToLower(Trim(ToStr(v)))
  }

  /** `parseBool(value, fallback)`: null, undefined and "" give the fallback,
      booleans are kept, the recognised words give their truth value and
      anything else gives the fallback. */
  function ParseBool(v: Value, fallback: bool): (b: bool)
    ensures Nullish(v) || v == Str("") ==> b == fallback
    ensures v.Bool? ==> b == v.b
    ensures !Nullish(v) && v != Str("") && !v.Bool? ==>
      && (Normalized(v) in TrueWords ==> b)
      && (Normalized(v) in FalseWords ==> !b)
      && (Normalized(v) !in TrueWords + FalseWords ==> b == fallback)
  {
    if Nullish(v) || v == Str("") then fallback
    else if v.Bool? then v.b
    else
      var normalized := Normalized(v);
      if normalized in TrueWords then true
      else if normalized in FalseWords then false
      else fallback
  }

  /** Case and surrounding whitespace do not matter; an unknown word keeps
      the fallback. */
  lemma ParseBoolPadded(fallback: bool)
    ensures ParseBool(Str(" YES "), fallback)
  {
    assert Trim(" YES ") == "YES" by {
      assert TrimStart(" YES ") == TrimStart("YES ");
      assert TrimEnd("YES ") == TrimEnd("YES");
    }
    assert ToLower("YES") == "yes";
  }

  lemma ParseBoolWords(fallback: bool)
    ensures !ParseBool(Str("False"), fallback)
    ensures ParseBool(Str("maybe"), fallback) == fallback
  {
    TrimUnpadded("False");
    assert ToLower("False") == "false";
    TrimUnpadded("maybe");
    assert ToLower("maybe") == "maybe";
  }

  /** Numbers are read through their decimal form. */
  lemma ParseBoolNumbers()
    ensures ParseBool(Num(Finite(1.0)), false)
    ensures !ParseBool(Num(Finite(0.0)), true)
  {
    assert NumberToString(Finite(1.0)) == "1" by {
      assert 1.0.Floor == 1;
      assert NatToDecimal(1) == "1";
    }
    assert NumberToString(Finite(0.0)) == "0" by {
      assert 0.0.Floor == 0;
      assert NatToDecimal(0) == "0";
    }
    TrimUnpadded("1");
    TrimUnpadded("0");
    assert ToLower("1") == "1" && ToLower("0") == "0";
  }

  /** `normalizeBaseUrl(url)`. A truthy value that is not a string has no
      `replace` method, so the call throws (None). */
  function NormalizeBaseUrl(url: Value): (r: Option<string>)
    ensures r.None? <==> Truthy(url) && !url.Str?
    ensures !Truthy(url) ==> r == Some("")
    ensures r.Some? ==> r.value == [] || r.value[|r.value| - 1] != '/'
    ensures url.Str? ==> r.Some? && StartsWith(url.s, r.value) && AllSlashes(url.s[|r.value|..])
  {
    if !Truthy(url) then Some("")
    else if url.Str? then
      StripTrailingSlashesSpec(url.s);
      Some(StripTrailingSlashes(url.s))
    else None
  }

  /** Normalizing twice changes nothing. */
  lemma NormalizeBaseUrlIdempotent(url: Value)
    ensures var r := NormalizeBaseUrl(url);
      r.Some? ==> NormalizeBaseUrl(Str(r.value)) == r
  {
    var r := NormalizeBaseUrl(url);
    if r.Some? && r.value != [] {
      assert StripTrailingSlashes(r.value) == r.value;
    }
  }

  predicate IsAbsoluteUrl(p: string) {
    StartsWith(p, "http://") || StartsWith(p, "https://")
  }

  /** `buildApiUrl(apiBaseUrl, path)`, for string arguments (an absent path
      reads as ""). */
  function BuildApiUrl(apiBaseUrl: string, path: string): (url: string)
    ensures var base := StripTrailingSlashes(apiBaseUrl);
      && (base == "" ==> url == path)
      && (base != "" && path == "" ==> url == base)
      && (base != "" && IsAbsoluteUrl(path) ==> url == path)
      && (base != "" && path != "" && !IsAbsoluteUrl(path) ==>
            url == base + "/" + (if path[0] == '/' then path[1..] else path))
  {
    var base := NormalizeBaseUrl(Str(apiBaseUrl)).value;
    if base == "" then path
    else if path == "" then base
    else if IsAbsoluteUrl(path) then path
    else base + (if StartsWith(path, "/") then "" else "/") + path
  }

  /** Joining a base with or without a trailing slash to a path with or
      without a leading slash gives one slash between them; an empty base or
      an absolute path yields the path. */
  lemma BuildApiUrlExamples()
    ensures BuildApiUrl("https://api.x", "/r") == "https://api.x/r"
    ensures BuildApiUrl("https://api.x/", "/r") == "https://api.x/r"
    ensures BuildApiUrl("https://api.x//", "r") == "https://api.x/r"
    ensures BuildApiUrl("", "/r") == "/r"
    ensures BuildApiUrl("https://api.x", "https://other/y") == "https://other/y"
  {
    assert StripTrailingSlashes("https://api.x") == "https://api.x";
    assert StripTrailingSlashes("https://api.x/") == "https://api.x";
    assert StripTrailingSlashes("https://api.x//") == "https://api.x";
    assert !IsAbsoluteUrl("/r") && !IsAbsoluteUrl("r");
    assert IsAbsoluteUrl("https://other/y") by {
      assert "https://other/y"[..8] == "https://";
    }
  }

  // ---------------------------------------------------------------------------
  // getRuntimeConfig

  datatype Config = Config(liffId: Value, apiBaseUrl: string, endpoints: map<string, Value>, requireLogin: bool, debug: bool)

  datatype Resolved = Resolved(config: Config, warnings: seq<string>)

  /** `getQueryParam(name)`: the decoded value of the first occurrence, or null. */
  function QueryParam(query: map<string, string>, name: string): (v: Value)
    ensures v == Null <==> name !in query
    ensures name in query ==> v == Str(query[name])
  {
    if name in query then Str(query[name]) else Null
  }

  /** `globalThis.APP_CONFIG || {}`: a falsy global reads as an empty object. */
  function FromGlobal(global: Value): (g: Value)
    ensures Truthy(g)
    ensures Truthy(global) ==> g == global
    ensures !Truthy(global) ==> g == Obj(map[]) && forall k :: Get(g, k) == Undefined
  {
    Or(global, Obj(map[]))
  }

  /** The `??` chain of one setting: query, then global, then `fallback`. */
  function Layered(query: map<string, string>, global: Value, name: string, fallback: Value): Value {
    Coalesce(Coalesce(QueryParam(query, name), Get(FromGlobal(global), name)), fallback)
  }

  /** A query value that is present, even "", wins over the global value,
      which wins over the fallback; only null and undefined fall through. */
  lemma LayeredPrecedence(query: map<string, string>, global: Value, name: string, fallback: Value)
    ensures var v, g := Layered(query, global, name, fallback), Get(FromGlobal(global), name);
      && (name in query ==> v == Str(query[name]))
      && (name !in query && !Nullish(g) ==> v == g)
      && (name !in query && Nullish(g) ==> v == fallback)
  {
  }

  /** One of the two flags: the query value, else the global value, read by
      `parseBool` with the built-in default as fallback. */
  function Flag(query: map<string, string>, global: Value, name: string, fallback: bool): bool {
    ParseBool(Coalesce(QueryParam(query, name), Get(FromGlobal(global), name)), fallback)
  }

  /** A recognised query value decides the flag; without a query value the
      global value is read; an unrecognised query value (including "") gives
      the built-in default, and the global value is not consulted. */
  lemma FlagPrecedence(query: map<string, string>, global: Value, name: string, fallback: bool)
    ensures name in query && Normalized(Str(query[name])) in TrueWords ==> Flag(query, global, name, fallback)
    ensures name in query && Normalized(Str(query[name])) in FalseWords ==> !Flag(query, global, name, fallback)
    ensures name in query && Normalized(Str(query[name])) !in TrueWords + FalseWords ==> Flag(query, global, name, fallback) == fallback
    ensures name !in query ==> Flag(query, global, name, fallback) == ParseBool(Get(FromGlobal(global), name), fallback)
  {
    if name in query && query[name] == "" {
      assert Normalized(Str("")) == "" by { assert Trim("") == ""; }
    }
  }

  /** The warnings for the resolved `liffId` and `apiBaseUrl`, in that order. */
  function Warnings(liffId: Value, apiBaseUrl: string): (w: seq<string>)
    ensures (MissingLiffIdWarning in w <==> !Truthy(liffId)) && (MissingApiBaseUrlWarning in w <==> apiBaseUrl == "")
    ensures w == [] <==> Truthy(liffId) && apiBaseUrl != ""
    ensures |w| == (if !Truthy(liffId) then 1 else 0) + (if apiBaseUrl == "" then 1 else 0)
    ensures |w| == 2 ==> w == [MissingLiffIdWarning, MissingApiBaseUrlWarning]
  {
    (if !Truthy(liffId) then [MissingLiffIdWarning] else [])
    + (if apiBaseUrl == "" then [MissingApiBaseUrlWarning] else [])
  }

  /** `getRuntimeConfig()`; None when `apiBaseUrl` resolves to a truthy value
      that is not a string, where normalizing it throws. */
  function GetRuntimeConfig(query: map<string, string>, global: Value, loc: Location): (r: Option<Resolved>)
    ensures r.None? <==> NormalizeBaseUrl(Layered(query, global, "apiBaseUrl", Str(BaseUrl(loc.hostname)))).None?
    ensures r.Some? ==> r.value.warnings == Warnings(r.value.config.liffId, r.value.config.apiBaseUrl)
    ensures r.Some? ==> r.value.config.liffId == Layered(query, global, "liffId", Str(GetLiffId(Undefined, loc)))
    ensures r.Some? ==> Some(r.value.config.apiBaseUrl) == NormalizeBaseUrl(Layered(query, global, "apiBaseUrl", Str(BaseUrl(loc.hostname))))
    ensures r.Some? ==> r.value.config.requireLogin == Flag(query, global, "requireLogin", DefaultRequireLogin)
    ensures r.Some? ==> r.value.config.debug == Flag(query, global, "debug", DefaultDebug)
  {
    var fromGlobal := FromGlobal(global);
    var liffId := Layered(query, global, "liffId", Str(GetLiffId(Undefined, loc)));
    match NormalizeBaseUrl(Layered(query, global, "apiBaseUrl", Str(BaseUrl(loc.hostname))))
    case None => None
    case Some(apiBaseUrl) =>
      var requireLogin := Flag(query, global, "requireLogin", DefaultRequireLogin);
      var debug := Flag(query, global, "debug", DefaultDebug);
      var endpoints := EndpointsOver(SpreadOf(Or(Get(fromGlobal, "endpoints"), Undefined)));
      Some(Resolved(Config(liffId, apiBaseUrl, endpoints, requireLogin, debug), Warnings(liffId, apiBaseUrl)))
  }

  /** A query value that is present, even "", wins over the global value,
      which wins over the default; only null and undefined fall through. */
  lemma LiffIdPrecedence(query: map<string, string>, global: Value, loc: Location)
    ensures var r, g := GetRuntimeConfig(query, global, loc), Get(FromGlobal(global), "liffId");
      r.Some? ==>
        && ("liffId" in query ==> r.value.config.liffId == Str(query["liffId"]))
        && ("liffId" !in query && !Nullish(g) ==> r.value.config.liffId == g)
        && ("liffId" !in query && Nullish(g) ==> r.value.config.liffId == Str(GetLiffId(Undefined, loc)))
  {
    LayeredPrecedence(query, global, "liffId", Str(GetLiffId(Undefined, loc)));
  }

  lemma ApiBaseUrlPrecedence(query: map<string, string>, global: Value, loc: Location)
    ensures var r, g := GetRuntimeConfig(query, global, loc), Get(FromGlobal(global), "apiBaseUrl");
      && ("apiBaseUrl" in query ==> r.Some? && r.value.config.apiBaseUrl == StripTrailingSlashes(query["apiBaseUrl"]))
      && ("apiBaseUrl" !in query && g.Str? ==> r.Some? && r.value.config.apiBaseUrl == StripTrailingSlashes(g.s))
      && ("apiBaseUrl" !in query && Nullish(g) ==> r.Some? && r.value.config.apiBaseUrl == BaseUrl(loc.hostname))
  {
    var base, g := BaseUrl(loc.hostname), Get(FromGlobal(global), "apiBaseUrl");
    LayeredPrecedence(query, global, "apiBaseUrl", Str(base));
    if "apiBaseUrl" !in query && Nullish(g) && base != "" {
      assert base[|base| - 1] != '/';
      assert StripTrailingSlashes(base) == base;
    }
  }

  /** An unrecognised query value for either flag falls back to the
      built-in default; the global value is not consulted. */
  lemma FlagFallbackSkipsGlobal(query: map<string, string>, global: Value, loc: Location, name: string)
    requires name == "requireLogin" || name == "debug"
    requires name in query && Normalized(Str(query[name])) !in TrueWords + FalseWords
    ensures var r := GetRuntimeConfig(query, global, loc);
      && (r.Some? && name == "requireLogin" ==> r.value.config.requireLogin == DefaultRequireLogin)
      && (r.Some? && name == "debug" ==> r.value.config.debug == DefaultDebug)
  {
    FlagPrecedence(query, global, name, if name == "debug" then DefaultDebug else DefaultRequireLogin);
  }

  /** `?requireLogin=maybe` with `APP_CONFIG.requireLogin = false` still
      requires login. */
  lemma FlagFallbackExample(loc: Location)
    ensures var r := GetRuntimeConfig(map["requireLogin" := "maybe"], Obj(map["requireLogin" := Bool(false)]), loc);
      r.Some? && r.value.config.requireLogin
  {
    TrimUnpadded("maybe");
    assert ToLower("maybe") == "maybe";
    FlagFallbackSkipsGlobal(map["requireLogin" := "maybe"], Obj(map["requireLogin" := Bool(false)]), loc, "requireLogin");
    ApiBaseUrlPrecedence(map["requireLogin" := "maybe"], Obj(map["requireLogin" := Bool(false)]), loc);
  }

  /** Every default endpoint key is present; the global endpoints replace
      only the keys they name. */
  lemma EndpointsMerge(query: map<string, string>, global: Value, loc: Location)
    ensures var r, named := GetRuntimeConfig(query, global, loc), SpreadOf(Get(FromGlobal(global), "endpoints"));
      r.Some? ==>
        && r.value.config.endpoints.Keys == DefaultEndpoints.Keys + named.Keys
        && (forall k | k in named :: r.value.config.endpoints[k] == named[k])
        && (forall k | k in DefaultEndpoints && k !in named :: r.value.config.endpoints[k] == DefaultEndpoints[k])
  {
  }

  /** With no query and no global object the defaults apply and no warning is raised. */
  lemma DefaultsRaiseNoWarning(loc: Location)
    ensures var r := GetRuntimeConfig(map[], Undefined, loc);
      r.Some? && r.value.warnings == []
  {
    ApiBaseUrlPrecedence(map[], Undefined, loc);
  }
}
