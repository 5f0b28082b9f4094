/** The routing and loading helpers of app.js: hash normalisation for
    `navigate`, the path candidates of `resolvePath`, and the first-success
    loop of `loadJSON` over `fetchAsJSON`. The network is a parameter: a
    function from a URL to what the server answers. */
module Routing {
  import opened JsText

  const HomeRoute := "#home"
  const LearnRoute := "#learn"

  /** `ROUTES`. */
  const Routes: set<string> := {HomeRoute, LearnRoute}

  /** `ROUTES.has(hash) ? hash : '#home'`. */
  function NormalizeRoute(hash: string): (h: string)
    ensures h in Routes
    ensures hash in Routes ==> h == hash
    ensures hash !in Routes ==> h == HomeRoute
  {
    if hash in Routes then hash else HomeRoute
  }

  /** Normalising twice is normalising once. */
  lemma NormalizeRouteIdempotent(hash: string)
    ensures NormalizeRoute(NormalizeRoute(hash)) == NormalizeRoute(hash)
  {
  }

  /** `resolvePath(p)`: `p`, and `p` without a leading "./" when it has one. */
  function ResolvePath(p: string): (r: seq<string>)
    ensures |r| >= 1 && r[0] == p
    ensures |r| == 2 <==> StartsWith(p, "./")
    ensures |r| <= 2
    ensures |r| == 2 ==> r[1] == p[2..] && p == "./" + r[1]
  {
    if StartsWith(p, "./") then [p, p[2..]] else [p]
  }

  /** What the server answers for one URL: an HTTP reply, whose body may not
      parse as JSON, or a network failure (the `fetch` promise rejects). */
  datatype Reply<T> =
    | HttpReply(ok: bool, status: nat, statusText: string, json: Option<T>)
    | NetworkFailure(message: string)

  /** A thrown error: its `message`, and the `url` property `fetchAsJSON`
      attaches to HTTP errors. */
  datatype FetchError = FetchError(message: string, url: Str)

  datatype Fetched<T> = Loaded(value: T) | Failed(error: FetchError)

  /** The message a non-JSON body rejects with; the engine's wording is not modelled. */
  const JsonSyntaxError := "SyntaxError"

  /** `fetchAsJSON(url)` given the server's reply. */
  function FetchAsJSON<T>(url: string, reply: Reply<T>): (r: Fetched<T>)
    ensures r.Loaded? <==> reply.HttpReply? && reply.ok && reply.json.Some?
    ensures reply.HttpReply? && !reply.ok ==>
              r == Failed(FetchError("HTTP " + NatToString(reply.status) + " " + reply.statusText + " for " + url, Some(url)))
    ensures r.Failed? && r.error.url.Some? ==> r.error.url.value == url
  {
    match reply
    case NetworkFailure(m) => Failed(FetchError(m, None))
    case HttpReply(ok, status, text, json) =>
      if !ok then Failed(FetchError("HTTP " + NatToString(status) + " " + text + " for " + url, Some(url)))
      else match json
        case Some(v) => Loaded(v)
        case None => Failed(FetchError(JsonSyntaxError, None))
  }

  /** Index of the first candidate that loads. */
  function FirstLoaded<T>(urls: seq<string>, server: string -> Reply<T>): (r: Option<nat>)
    ensures r.Some? ==> r.value < |urls| && FetchAsJSON(urls[r.value], server(urls[r.value])).Loaded?
                        && forall j :: 0 <= j < r.value ==> FetchAsJSON(urls[j], server(urls[j])).Failed?
    ensures r.None? <==> forall j :: 0 <= j < |urls| ==> FetchAsJSON(urls[j], server(urls[j])).Failed?
  {
    if urls == [] then None
    else if FetchAsJSON(urls[0], server(urls[0])).Loaded? then Some(0)
    else
      match FirstLoaded(urls[1..], server)
      case None => None
      case Some(i) => Some(i + 1)
  }

  /** What `loadJSON(path)` settles with: the first candidate that loads,
      else the failure of the last one tried. */
  function LoadOutcome<T>(path: string, server: string -> Reply<T>): (r: Fetched<T>)
    ensures var urls := ResolvePath(path);
            match FirstLoaded(urls, server)
            case Some(i) => r == FetchAsJSON(urls[i], server(urls[i]))
            case None => r == FetchAsJSON(urls[|urls| - 1], server(urls[|urls| - 1])) && r.Failed?
  {
    var urls := ResolvePath(path);
    match FirstLoaded(urls, server)
    case Some(i) => FetchAsJSON(urls[i], server(urls[i]))
    case None => FetchAsJSON(urls[|urls| - 1], server(urls[|urls| - 1]))
  }

  /** `loadJSON(path)`: try each candidate in order, keep the last error. */
  method LoadJSON<T>(path: string, server: string -> Reply<T>) returns (r: Fetched<T>)
    ensures r == LoadOutcome(path, server)
  {
    var urls := ResolvePath(path);
    var lastErr: Option<FetchError> := None;
    for i := 0 to |urls|
      invariant forall j :: 0 <= j < i ==> FetchAsJSON(urls[j], server(urls[j])).Failed?
      invariant i == 0 <==> lastErr.None?
      invariant i > 0 ==> lastErr == Some(FetchAsJSON(urls[i - 1], server(urls[i - 1])).error)
    {
      var res := FetchAsJSON(urls[i], server(urls[i]));
      if res.Loaded? {
        return res;
      }
      lastErr := Some(res.error);
    }
    if lastErr.Some? {
      r := Failed(lastErr.value);
    } else {
      r := Failed(FetchError("Could not fetch " + path, None));
    }
  }

  /** `loadJSON` succeeds exactly when some candidate loads, with the value of
      the first that does; otherwise it throws the last candidate's error: there
      is always one, so the "Could not fetch" fallback is never reached. */
  lemma LoadOutcomeCases<T>(path: string, server: string -> Reply<T>)
    ensures var urls := ResolvePath(path);
            var r := LoadOutcome(path, server);
            (r.Loaded? <==> exists i :: 0 <= i < |urls| && FetchAsJSON(urls[i], server(urls[i])).Loaded?)
            && (r.Loaded? ==> exists i :: 0 <= i < |urls| && r == FetchAsJSON(urls[i], server(urls[i]))
                                && forall j :: 0 <= j < i ==> FetchAsJSON(urls[j], server(urls[j])).Failed?)
            && (r.Failed? ==> r.error == FetchAsJSON(urls[|urls| - 1], server(urls[|urls| - 1])).error)
  {
    var urls := ResolvePath(path);
    var r := LoadOutcome(path, server);
    match FirstLoaded(urls, server)
    case Some(i) =>
      assert r == FetchAsJSON(urls[i], server(urls[i]));
    case None =>
      assert FetchAsJSON(urls[|urls| - 1], server(urls[|urls| - 1])).Failed?;
  }

  /** A "./" path whose first form fails over HTTP and whose second loads
      is loaded from the second. */
  lemma SecondCandidateServes<T>(rest: string, v: T, server: string -> Reply<T>)
    requires server("./" + rest) == HttpReply(false, 404, "Not Found", None)
    requires server(rest) == HttpReply(true, 200, "OK", Some(v))
    ensures LoadOutcome("./" + rest, server) == Loaded(v)
  {
    var p := "./" + rest;
    assert StartsWith(p, "./") && p[2..] == rest;
    var urls := ResolvePath(p);
    assert urls == [p, rest];
    assert FirstLoaded(urls[1..], server) == Some(0);
  }
}
