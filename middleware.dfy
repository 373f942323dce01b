/** The edge middleware (src/middleware.ts): requests for static assets,
    framework internals and health checks pass straight through; every other
    response carries the request id and a timing header. */
module Middleware {
  import opened Strings
  import LoggerIndex
  import UtilsLogger

  /** The extensions of the asset pattern, in lower case. */
  const AssetExtensions: seq<string> := ["ico", "png", "jpg", "jpeg", "svg", "css", "js", "woff", "woff2", "ttf", "map"]

  /** `lower` ends in `.` and one of `exts`. */
  predicate EndsWithExtension(lower: string, exts: seq<string>)
    decreases |exts|
  {
    exts != [] && (EndsWith(lower, "." + exts[0]) || EndsWithExtension(lower, exts[1..]))
  }

  lemma {:induction false} EndsWithExtensionAt(lower: string, exts: seq<string>)
    ensures EndsWithExtension(lower, exts) <==> exists i :: 0 <= i < |exts| && EndsWith(lower, "." + exts[i])
    decreases |exts|
  {
    if exts != [] {
      EndsWithExtensionAt(lower, exts[1..]);
      assert forall i :: 1 <= i < |exts| ==> exts[i] == exts[1..][i - 1];
      if EndsWithExtension(lower, exts[1..]) {
        var j :| 0 <= j < |exts[1..]| && EndsWith(lower, "." + exts[1..][j]);
        assert EndsWith(lower, "." + exts[j + 1]);
      }
    }
  }

  /** `path.match(/\.(ico|png|...|map)$/i)`: the `i` flag folds ASCII letters
      only, so the test is on the lower-cased path. */
  predicate IsAssetPath(path: string) {
    EndsWithExtension(ToLower(path), AssetExtensions)
  }

  /** `shouldSkipLogging(req)` */
  predicate ShouldSkipLogging(path: string) {
    if IsAssetPath(path) then true
    else if StartsWith(path, "/_next/") then true
    else if path == "/api/health" || path == "/health" then true
    else false
  }

  /** A path is skipped exactly when it ends in `.` and a listed extension,
      in any letter case, starts with `/_next/`, or is one of the two health
      routes. */
  lemma SkipRule(path: string)
    ensures ShouldSkipLogging(path) <==>
      (exists i :: 0 <= i < |AssetExtensions| && EndsWith(ToLower(path), "." + AssetExtensions[i])) ||
      StartsWith(path, "/_next/") || path == "/api/health" || path == "/health"
  {
    EndsWithExtensionAt(ToLower(path), AssetExtensions);
  }

  lemma LowerUpper(s: string)
    ensures ToLower(ToUpper(s)) == ToLower(s)
  {
    assert forall i :: 0 <= i < |s| ==> ToLower(ToUpper(s))[i] == ToLower(s)[i];
  }

  /** Letter case does not change whether a path is an asset. */
  lemma AssetCaseInsensitive(path: string)
    ensures IsAssetPath(ToLower(path)) == IsAssetPath(path)
    ensures IsAssetPath(ToUpper(path)) == IsAssetPath(path)
  {
    ToLowerIdempotent(path);
    LowerUpper(path);
  }

  /** An upper-case image is skipped. */
  lemma UpperCaseImageSkipped()
    ensures ShouldSkipLogging("/logo.PNG")
  {
    assert ToLower("/logo.PNG") == "/logo.png";
    assert EndsWith("/logo.png", "." + AssetExtensions[1]);
    EndsWithExtensionAt("/logo.png", AssetExtensions);
  }

  lemma EndsWithLast(s: string, p: string)
    requires p != [] && EndsWith(s, p)
    ensures s[|s| - 1] == p[|p| - 1]
  {
    assert s[|s| - |p|..][|p| - 1] == s[|s| - 1];
  }

  /** An API route is logged. */
  lemma ApiRouteLogged()
    ensures !ShouldSkipLogging("/api/chat")
  {
    var path := "/api/chat";
    assert ToLower(path) == path;
    SkipRule(path);
    forall i | 0 <= i < |AssetExtensions| ensures !EndsWith(path, "." + AssetExtensions[i]) {
      var suffix := "." + AssetExtensions[i];
      assert suffix[|suffix| - 1] != 't';
      if EndsWith(path, suffix) {
        EndsWithLast(path, suffix);
      }
    }
    assert !StartsWith(path, "/_next/") by {
      assert path[1] != "/_next/"[1];
    }
  }

  /** `middleware(req)`: a skipped request gets a plain pass-through response;
      any other response carries the incoming request id (or `uuid`) and the
      timing header. `durationMs` is the rounded elapsed time. */
  method HandleMiddleware(req: LoggerIndex.Request, uuid: string, durationMs: int)
    returns (response: UtilsLogger.Response)
    ensures fresh(response) && response.status == 200
    ensures ShouldSkipLogging(req.pathname) ==> response.headers == map[]
    ensures !ShouldSkipLogging(req.pathname) ==>
      response.headers == map["x-request-id" := UtilsLogger.RequestId(req, uuid),
                              "server-timing" := "request;dur=" + IntToString(durationMs)]
  {
    response := new UtilsLogger.Response(200, map[]);
    if ShouldSkipLogging(req.pathname) {
      return;
    }
    var requestId := UtilsLogger.RequestId(req, uuid);
    response.headers := response.headers["x-request-id" := requestId];
    response.headers := response.headers["server-timing" := "request;dur=" + IntToString(durationMs)];
  }
}
