/** Application defaults (public/config/app.config.js): the environment and
    base URL chosen from the page's hostname, the page feature read from its
    path, the LIFF id table, and the merge of user overrides over the defaults.
    The page location is a parameter. */
module AppConfig {

  import opened Js

  /** The parts of `globalThis.location` that are read. */
  datatype Location = Location(hostname: string, pathname: string)

  const BaseUrls: map<string, string> := map["dev" := "http://localhost:5000/api", "prod" := "https://api.example.com"]

  const LiffIds: map<string, map<string, string>> := map[
    "default" := map["dev" := "2006755947-ToZa51HW", "prod" := "2006755947-ToZa51HW"],
    "register" := map["dev" := "2006755947-ToZa51HW", "prod" := "2006755947-ToZa51HW"],
    "forgetTime" := map["dev" := "2006755947-3C7TBS5B", "prod" := "2006755947-3C7TBS5B"]]

  const DefaultEndpoints: map<string, Value> :=
    map["company" := Str("/company"), "register" := Str("/register"), "forgetTime" := Str("/forget-time")]

  const DefaultRequireLogin := true
  const DefaultDebug := false

  /** Property names every plain object inherits from `Object.prototype`;
      indexing a plain object with one of them yields a truthy value. */
  const ObjectPrototypeKeys: set<string> := {
    "constructor", "__proto__", "toString", "toLocaleString", "valueOf", "hasOwnProperty",
    "isPrototypeOf", "propertyIsEnumerable", "__defineGetter__", "__defineSetter__",
    "__lookupGetter__", "__lookupSetter__"}

  /** `getCurrentEnvironment()` */
  function Environment(hostname: string): (env: string)
    ensures env in BaseUrls && env in LiffIds["default"]
    ensures env == "dev" <==> hostname == "localhost"
  {
    if hostname == "localhost" then "dev" else "prod"
  }

  /** `getBaseUrl()`: the local API on localhost, the public one elsewhere. */
  function BaseUrl(hostname: string): (url: string)
    ensures url in BaseUrls.Values
    ensures url == "http://localhost:5000/api" <==> hostname == "localhost"
  {
    BaseUrls[Environment(hostname)]
  }

  // ---------------------------------------------------------------------------
  // detectFeatureFromPath

  /** `parts.findLast(Boolean) || ""`: the last non-empty part, or "". */
  function LastNonEmpty(parts: seq<string>): (seg: string)
    ensures seg == "" <==> forall i | 0 <= i < |parts| :: parts[i] == ""
    ensures seg != "" ==> exists i | 0 <= i < |parts| :: parts[i] == seg && forall j | i < j < |parts| :: parts[j] == ""
  {
    if parts == [] then ""
    else if parts[|parts| - 1] != "" then parts[|parts| - 1]
    else
      var init := parts[..|parts| - 1];
      var seg := LastNonEmpty(init);
      if seg != "" then
        var i :| 0 <= i < |init| && init[i] == seg && forall j | i < j < |init| :: init[j] == "";
        assert parts[i] == seg && forall j | i < j < |parts| :: parts[j] == "";
        seg
      else seg
  }

  /** The segment the feature is read from. */
  function LastSegment(path: string): string {
    LastNonEmpty(Split(StripTrailingSlashes(path), '/'))
  }

  /** `detectFeatureFromPath()` on `location.pathname || ""`. */
  function DetectFeatureFromPath(path: string): (feature: string)
    ensures feature in LiffIds
    ensures feature == "register" <==> ToLower(LastSegment(path)) == "register"
    ensures feature == "forgetTime" <==> ToLower(LastSegment(path)) == "forget-time"
  {
    var normalized := ToLower(LastSegment(path));
    if normalized == "register" then "register"
    else if normalized == "forget-time" then "forgetTime"
    else "default"
  }

  /** A trailing slash does not change the feature. */
  lemma DetectFeatureIgnoresTrailingSlash(path: string)
    ensures DetectFeatureFromPath(path + "/") == DetectFeatureFromPath(path)
  {
    assert (path + "/")[..|path + "/"| - 1] == path;
  }

  /** The feature comes from the last segment of the path, whatever precedes it. */
  lemma LastSegmentOf(prefix: string, seg: string)
    requires seg != [] && '/' !in seg
    ensures LastSegment(prefix + "/" + seg) == seg
  {
    var path := prefix + "/" + seg;
    assert path[|path| - 1] == seg[|seg| - 1];
    assert StripTrailingSlashes(path) == path;
    SplitConcat(prefix, seg, '/');
    assert Split(seg, '/') == [seg];
  }

  /** The pages' own paths: the registration page, the forget-time page in
      any letter case, and the empty path. */
  lemma DetectRegister(prefix: string)
    ensures DetectFeatureFromPath(prefix + "/register") == "register"
  {
    assert prefix + "/register" == prefix + "/" + "register";
    LastSegmentOf(prefix, "register");
  }

  lemma DetectForgetTime(prefix: string)
    ensures DetectFeatureFromPath(prefix + "/Forget-Time") == "forgetTime"
  {
    assert prefix + "/Forget-Time" == prefix + "/" + "Forget-Time";
    LastSegmentOf(prefix, "Forget-Time");
    assert ToLower("Forget-Time") == "forget-time";
  }

  lemma DetectEmptyPath()
    ensures DetectFeatureFromPath("") == "default"
  {
    assert Split("", '/') == [""];
  }

  // ---------------------------------------------------------------------------
  // getLiffId

  /** `feature || detectFeatureFromPath() || "default"`, as a property key. */
  function UsedFeature(feature: Value, loc: Location): string {
    if Truthy(feature) then ToStr(feature) else DetectFeatureFromPath(loc.pathname)
  }

  /** `getLiffId(feature)` as written: `LIFF_IDS[usedFeature]` also finds the
      properties every object inherits, which are truthy, so the fallback to
      the default table is skipped and reading the environment key from them
      gives undefined (None). */
  function GetLiffIdAsWritten(feature: Value, loc: Location): (id: Option<string>)
    ensures id.None? <==> UsedFeature(feature, loc) in ObjectPrototypeKeys
  {
    var key := UsedFeature(feature, loc);
    var env := Environment(loc.hostname);
    if key in LiffIds then Some(LiffIds[key][env])
    else if key in ObjectPrototypeKeys then None
    else Some(LiffIds["default"][env])
  }

  /** The inherited property name makes `getLiffId` give no id at all. */
  lemma GetLiffIdAsWrittenMissesOnInheritedKey(loc: Location)
    ensures GetLiffIdAsWritten(Str("toString"), loc) == None
  {
  }

  /** `getLiffId(feature)` with the lookup restricted to the table's own
      entries: a known feature selects its row, any other the default row. */
  function GetLiffId(feature: Value, loc: Location): (id: string)
    ensures var env := Environment(loc.hostname);
      && (UsedFeature(feature, loc) in LiffIds ==> id == LiffIds[UsedFeature(feature, loc)][env])
      && (UsedFeature(feature, loc) !in LiffIds ==> id == LiffIds["default"][env])
    ensures id in {LiffIds["default"]["dev"], LiffIds["forgetTime"]["dev"]}
  {
    var key := UsedFeature(feature, loc);
    var ids := if key in LiffIds then LiffIds[key] else LiffIds["default"];
    ids[Environment(loc.hostname)]
  }

  /** The two lookups agree on every key that is not an inherited property;
      in particular on every feature the path can yield. */
  lemma GetLiffIdAgrees(feature: Value, loc: Location)
    ensures UsedFeature(feature, loc) !in ObjectPrototypeKeys
        ==> GetLiffIdAsWritten(feature, loc) == Some(GetLiffId(feature, loc))
    ensures !Truthy(feature) ==> GetLiffIdAsWritten(feature, loc) == Some(GetLiffId(feature, loc))
  {
    var key := UsedFeature(feature, loc);
    if !Truthy(feature) {
      assert key in LiffIds;
      assert "register" !in ObjectPrototypeKeys && "forgetTime" !in ObjectPrototypeKeys;
      assert "default" !in ObjectPrototypeKeys;
    }
  }

  // ---------------------------------------------------------------------------
  // DEFAULT_APP_CONFIG and getMergedAppConfig

  /** `DEFAULT_APP_CONFIG`, computed for the page's location: the LIFF id of
      the feature the path names and the API of the environment, the three
      endpoints, login required and debugging off. */
  function DefaultAppConfig(loc: Location): (d: map<string, Value>)
    ensures d.Keys == {"liffId", "apiBaseUrl", "endpoints", "requireLogin", "debug"}
    ensures d["liffId"] == Str(LiffIds[DetectFeatureFromPath(loc.pathname)][Environment(loc.hostname)])
    ensures d["apiBaseUrl"] == Str(if loc.hostname == "localhost" then "http://localhost:5000/api" else "https://api.example.com")
    ensures d["endpoints"] == Obj(DefaultEndpoints) && d["requireLogin"] == Bool(true) && d["debug"] == Bool(false)
  {
    var id := GetLiffId(Undefined, loc);
    assert id == LiffIds[DetectFeatureFromPath(loc.pathname)][Environment(loc.hostname)] by {
      assert UsedFeature(Undefined, loc) == DetectFeatureFromPath(loc.pathname);
    }
    var url := BaseUrl(loc.hostname);
    assert url == if loc.hostname == "localhost" then "http://localhost:5000/api" else "https://api.example.com" by {
      assert |"dev"| != |"prod"|;
    }
    // The five keys have five different lengths, so no entry hides another.
    assert |"liffId"| == 6 && |"apiBaseUrl"| == 10 && |"endpoints"| == 9 && |"requireLogin"| == 12 && |"debug"| == 5;
    map[
      "liffId" := Str(id),
      "apiBaseUrl" := Str(url),
      "endpoints" := Obj(DefaultEndpoints),
      "requireLogin" := Bool(DefaultRequireLogin),
      "debug" := Bool(DefaultDebug)]
  }

  /** The properties of `overrides || {}` that the spread copies. */
  function UserFields(overrides: Value): map<string, Value> {
    SpreadOf(Or(overrides, Obj(map[])))
  }

  /** `{...defaults.endpoints, ...named}`: every default endpoint is kept
      unless `named` replaces it. */
  function EndpointsOver(named: map<string, Value>): (e: map<string, Value>)
    ensures e.Keys == DefaultEndpoints.Keys + named.Keys
    ensures forall k | k in named :: e[k] == named[k]
    ensures forall k | k in DefaultEndpoints && k !in named :: e[k] == DefaultEndpoints[k]
  {
    DefaultEndpoints + named
  }

  /** `{...defaults, ...user, endpoints}`, followed by writing `liffId` when
      one is given. */
  function Merge(defaults: map<string, Value>, user: map<string, Value>, endpoints: Value, liffId: Option<Value>): (m: map<string, Value>)
    ensures m.Keys == defaults.Keys + user.Keys + {"endpoints"} + (if liffId.Some? then {"liffId"} else {})
    ensures m["endpoints"] == endpoints
    ensures liffId.Some? ==> m["liffId"] == liffId.value
    ensures liffId.None? && "liffId" in user ==> m["liffId"] == user["liffId"]
    ensures forall k | k in user && k != "endpoints" && k != "liffId" :: m[k] == user[k]
    ensures forall k | k in defaults && k !in user && k != "endpoints" && k != "liffId" :: m[k] == defaults[k]
  {
    assert "liffId" != "endpoints" by {
      assert |"liffId"| != |"endpoints"|;
    }
    var spread := defaults + user + map["endpoints" := endpoints];
    if liffId.Some? then spread["liffId" := liffId.value] else spread
  }

  /** `getMergedAppConfig(overrides)` */
  function GetMergedAppConfig(overrides: Value, loc: Location): map<string, Value> {
    var user := Or(overrides, Obj(map[]));
    var endpoints := EndpointsOver(SpreadOf(Get(user, "endpoints")));
    var liffId := if !Truthy(Get(user, "liffId")) then Some(Str(GetLiffId(Or(Get(user, "feature"), Undefined), loc))) else None;
    Merge(DefaultAppConfig(loc), SpreadOf(user), Obj(endpoints), liffId)
  }

  /** The merge keeps every default key and adds the user's. */
  lemma MergedKeys(overrides: Value, loc: Location)
    ensures GetMergedAppConfig(overrides, loc).Keys == DefaultAppConfig(loc).Keys + UserFields(overrides).Keys
  {
  }

  /** A user value wins over the default for every key but `endpoints` and
      `liffId`, which are merged separately; keys the user does not name keep
      their default. */
  lemma MergedValues(overrides: Value, loc: Location)
    ensures var merged, user, defaults := GetMergedAppConfig(overrides, loc), UserFields(overrides), DefaultAppConfig(loc);
      && (forall k | k in user && k != "endpoints" && k != "liffId" :: k in merged && merged[k] == user[k])
      && (forall k | k in defaults && k !in user && k != "liffId" && k != "endpoints" :: k in merged && merged[k] == defaults[k])
  {
  }

  /** A truthy user `liffId` is kept; otherwise the id is looked up again for
      the user's `feature`. */
  lemma MergedLiffId(overrides: Value, loc: Location)
    ensures var merged, user := GetMergedAppConfig(overrides, loc), Or(overrides, Obj(map[]));
      && (Truthy(Get(user, "liffId")) ==> merged["liffId"] == Get(user, "liffId"))
      && (!Truthy(Get(user, "liffId")) ==> merged["liffId"] == Str(GetLiffId(Get(user, "feature"), loc)))
  {
  }

  /** Every default endpoint survives the merge; the user's endpoints replace
      only the keys they name. */
  lemma MergedEndpoints(overrides: Value, loc: Location)
    ensures var e := GetMergedAppConfig(overrides, loc)["endpoints"];
      var named := SpreadOf(Get(Or(overrides, Obj(map[])), "endpoints"));
      && e.Obj? && e.fields.Keys == DefaultEndpoints.Keys + named.Keys
      && (forall k | k in named :: e.fields[k] == named[k])
      && (forall k | k in DefaultEndpoints && k !in named :: e.fields[k] == DefaultEndpoints[k])
  {
  }

  /** Null, undefined or any other falsy override leaves the defaults as they are. */
  lemma MergedWithoutOverrides(overrides: Value, loc: Location)
    requires !Truthy(overrides)
    ensures GetMergedAppConfig(overrides, loc) == DefaultAppConfig(loc)
  {
    var defaults := DefaultAppConfig(loc);
    assert SpreadOf(Obj(map[])) == map[];
    assert EndpointsOver(map[]) == DefaultEndpoints;
    MergeNothing(defaults, Obj(DefaultEndpoints), Str(GetLiffId(Undefined, loc)));
  }

  /** Merging no user properties, with the default endpoints and `liffId`,
      gives the defaults back. */
  lemma MergeNothing(defaults: map<string, Value>, endpoints: Value, liffId: Value)
    requires "endpoints" in defaults && defaults["endpoints"] == endpoints
    requires "liffId" in defaults && defaults["liffId"] == liffId
    ensures Merge(defaults, map[], endpoints, Some(liffId)) == defaults
  {
    var merged := Merge(defaults, map[], endpoints, Some(liffId));
    assert merged.Keys == defaults.Keys;
    assert forall k | k in merged :: merged[k] == defaults[k];
  }
}
