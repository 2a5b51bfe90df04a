/** The release readback manifest: its normalising validator, and the producer that maps a site candidate's
    files to exact routes. */
module Readback {
  import opened Results

  const SCHEMA := "WebReleaseSentinelManifestV1"
  const VERSION := "1.0.0"
  const MAX_TIMEOUT := 60.0
  const MAX_BODY := 16 * 1024 * 1024
  const MAX_ROUTES := 128
  const DENIED: seq<string> := ["POST", "PUT", "PATCH", "DELETE", "CONNECT", "TRACE"]
  const MISSING_ROUTE := "/__mcp_trust_candidate_missing__"

  datatype Defaults = Defaults(timeout: real, maxBody: int, follow: bool)

  /** Absent sentinel lists are empty ones; the other optional fields are Options. */
  datatype Route = Route(
    id: string, verb: string, path: string, status: int, timeout: Option<real>, maxBody: Option<int>,
    required: seq<string>, forbidden: seq<string>, exact: Option<string>, digest: Option<string>)

  datatype Manifest = Manifest(
    schema: string, version: string, name: string, defaults: Defaults, denied: seq<string>, routes: seq<Route>)

  // ---- what validate_manifest accepts ----

  predicate Lower(c: char) { 'a' <= c <= 'z' }
  predicate Digit(c: char) { '0' <= c <= '9' }

  /** `[a-z][a-z0-9-]{0,62}` */
  predicate IsId(s: string) {
    && 0 < |s| <= 63 && Lower(s[0])
    && forall i :: 0 <= i < |s| ==> Lower(s[i]) || Digit(s[i]) || s[i] == '-'
  }

  predicate IsHexDigest(s: string) {
    |s| == 64 && forall i :: 0 <= i < |s| ==> Digit(s[i]) || 'a' <= s[i] <= 'f'
  }

  /** The characters Python's `str.isspace` accepts. */
  predicate Space(c: char) {
    var n := c as int;
    || 9 <= n <= 13 || 28 <= n <= 32 || n == 133 || n == 160 || n == 0x1680 || 0x2000 <= n <= 0x200a
    || n == 0x2028 || n == 0x2029 || n == 0x202f || n == 0x205f || n == 0x3000
  }

  predicate IsRoute(s: string) {
    && "/" <= s && !("//" <= s)
    && forall i :: 0 <= i < |s| ==> s[i] != '#' && !Space(s[i])
  }

  predicate NoRepeats(s: seq<string>) { forall i, j :: 0 <= i < j < |s| ==> s[i] != s[j] }

  predicate Sentinels(s: seq<string>) {
    |s| <= 64 && (forall i :: 0 <= i < |s| ==> 0 < |s[i]| <= 4096) && NoRepeats(s)
  }

  function UpperChar(c: char): char { if Lower(c) then c - 'a' + 'A' else c }

  function Upper(s: string): string { seq(|s|, i requires 0 <= i < |s| => UpperChar(s[i])) }

  predicate Safe(verb: string) { verb == "GET" || verb == "HEAD" }

  predicate TimeoutOk(t: real) { 0.0 < t <= MAX_TIMEOUT }
  predicate BodyOk(n: int) { 0 < n <= MAX_BODY }

  predicate RouteValid(r: Route) {
    && IsId(r.id) && Safe(Upper(r.verb)) && IsRoute(r.path) && 100 <= r.status <= 599
    && (r.timeout.Some? ==> TimeoutOk(r.timeout.value)) && (r.maxBody.Some? ==> BodyOk(r.maxBody.value))
    && Sentinels(r.required) && Sentinels(r.forbidden) && (forall s :: s in r.required ==> s !in r.forbidden)
    && (r.digest.Some? ==> IsHexDigest(r.digest.value)) && !(r.exact.Some? && r.digest.Some?)
    && (Upper(r.verb) == "HEAD" ==> r.required == [] && r.forbidden == [] && r.exact.None? && r.digest.None?)
  }

  predicate DifferentIds(routes: seq<Route>) {
    forall i, j :: 0 <= i < j < |routes| ==> routes[i].id != routes[j].id
  }

  predicate HeaderValid(m: Manifest) {
    && m.schema == SCHEMA && m.version == VERSION && IsId(m.name)
    && TimeoutOk(m.defaults.timeout) && BodyOk(m.defaults.maxBody)
    && (forall s :: s in m.denied ==> s in DENIED) && (forall s :: s in DENIED ==> s in m.denied)
    && NoRepeats(m.denied)
    && 1 <= |m.routes| <= MAX_ROUTES
  }

  predicate ManifestValid(m: Manifest) {
    HeaderValid(m) && RoutesValid(m.routes)
  }

  function NormalRoute(r: Route, d: Defaults): Route {
    r.(verb := Upper(r.verb),
       timeout := Some(if r.timeout.Some? then r.timeout.value else d.timeout),
       maxBody := Some(if r.maxBody.Some? then r.maxBody.value else d.maxBody))
  }

  function NormalRoutes(routes: seq<Route>, d: Defaults): seq<Route> {
    seq(|routes|, i requires 0 <= i < |routes| => NormalRoute(routes[i], d))
  }

  function Normal(m: Manifest): Manifest { m.(denied := DENIED, routes := NormalRoutes(m.routes, m.defaults)) }

  predicate RoutesValid(routes: seq<Route>) {
    DifferentIds(routes) && forall i :: 0 <= i < |routes| ==> RouteValid(routes[i])
  }

  method NormalizeRoutes(routes: seq<Route>, d: Defaults) returns (r: Result<seq<Route>>)
    ensures r.Ok? <==> RoutesValid(routes)
    ensures r.Ok? ==> r.value == NormalRoutes(routes, d)
  {
    var normalized: seq<Route> := [];
    var ids: set<string> := {};
    var i := 0;
    while i < |routes|
      invariant 0 <= i <= |routes| && |normalized| == i
      invariant forall k :: 0 <= k < i ==> RouteValid(routes[k]) && normalized[k] == NormalRoute(routes[k], d)
      invariant forall id :: id in ids <==> exists k :: 0 <= k < i && routes[k].id == id
      invariant forall j, k :: 0 <= j < k < i ==> routes[j].id != routes[k].id
    {
      var route := routes[i];
      if route.id in ids || !RouteValid(route) { return Raised; }
      ids := ids + {route.id};
      normalized := normalized + [NormalRoute(route, d)];
      i := i + 1;
    }
    r := Ok(normalized);
  }

  /** validate_manifest */
  method ValidateManifest(m: Manifest) returns (r: Result<Manifest>)
    ensures r.Ok? <==> ManifestValid(m)
    ensures r.Ok? ==> r.value == Normal(m) && HeaderKept(r.value, m)
    ensures r.Ok? ==> |r.value.routes| == |m.routes| && forall i :: 0 <= i < |m.routes| ==>
      RouteKept(r.value.routes[i], m.routes[i], m.defaults) && RouteProper(r.value.routes[i])
    ensures r.Ok? ==> forall i, j :: 0 <= i < j < |m.routes| ==> m.routes[i].id != m.routes[j].id
  {
    r := Validate(m);
    if r.Ok? { ManifestStands(m); }
  }

  method Validate(m: Manifest) returns (r: Result<Manifest>)
    ensures r.Ok? <==> ManifestValid(m)
    ensures r.Ok? ==> r.value == Normal(m)
  {
    if !HeaderValid(m) { return Raised; }
    var routes := NormalizeRoutes(m.routes, m.defaults);
    if routes.Raised? { return Raised; }
    r := Ok(m.(denied := DENIED, routes := routes.value));
  }

  predicate HeaderKept(n: Manifest, m: Manifest) {
    && n.schema == m.schema == "WebReleaseSentinelManifestV1" && n.version == m.version == "1.0.0"
    && n.name == m.name && n.defaults == m.defaults && 1 <= |m.routes| <= 128
    && 0.0 < m.defaults.timeout <= 60.0 && 0 < m.defaults.maxBody <= 16_777_216
    && n.denied == ["POST", "PUT", "PATCH", "DELETE", "CONNECT", "TRACE"]
    && (forall s :: s in m.denied ==> s in n.denied) && (forall s :: s in n.denied ==> s in m.denied)
  }

  /** What validation leaves of a route: its own limits where it has them, the defaults where it has none. */
  predicate RouteKept(n: Route, r: Route, d: Defaults) {
    && n.id == r.id && n.path == r.path && n.status == r.status
    && n.required == r.required && n.forbidden == r.forbidden && n.exact == r.exact && n.digest == r.digest
    && (n.verb == "GET" || n.verb == "HEAD") && n.verb == Upper(r.verb)
    && (r.timeout.Some? ==> n.timeout == r.timeout) && (r.timeout.None? ==> n.timeout == Some(d.timeout))
    && (r.maxBody.Some? ==> n.maxBody == r.maxBody) && (r.maxBody.None? ==> n.maxBody == Some(d.maxBody))
  }

  predicate RouteProper(n: Route) {
    && 0 < |n.id| <= 63 && 'a' <= n.id[0] <= 'z' && 100 <= n.status <= 599
    && n.path != "" && n.path[0] == '/' && (|n.path| > 1 ==> n.path[1] != '/')
    && (forall i :: 0 <= i < |n.path| ==> n.path[i] != '#' && n.path[i] != ' ')
    && n.timeout.Some? && 0.0 < n.timeout.value <= 60.0 && n.maxBody.Some? && 0 < n.maxBody.value <= 16_777_216
    && |n.required| <= 64 && |n.forbidden| <= 64 && (forall s :: s in n.required ==> s !in n.forbidden)
    && (n.digest.Some? ==> |n.digest.value| == 64 && n.exact.None?)
    && (n.verb == "HEAD" ==> n.required == [] && n.forbidden == [] && n.exact.None? && n.digest.None?)
  }

  lemma StartsWithOneSlash(s: string)
    ensures "/" <= s && !("//" <= s) <==> s != "" && s[0] == '/' && (|s| > 1 ==> s[1] != '/')
  {
  }

  lemma ManifestStands(m: Manifest)
    requires ManifestValid(m)
    ensures HeaderKept(Normal(m), m)
    ensures forall i :: 0 <= i < |m.routes| ==>
      RouteKept(Normal(m).routes[i], m.routes[i], m.defaults) && RouteProper(Normal(m).routes[i])
  {
    forall i | 0 <= i < |m.routes|
      ensures RouteKept(Normal(m).routes[i], m.routes[i], m.defaults) && RouteProper(Normal(m).routes[i])
    {
      RouteStands(m.routes[i], m.defaults);
    }
  }

  lemma RouteStands(r: Route, d: Defaults)
    requires RouteValid(r) && TimeoutOk(d.timeout) && BodyOk(d.maxBody)
    ensures RouteKept(NormalRoute(r, d), r, d) && RouteProper(NormalRoute(r, d))
  {
    assert Space(' ');
    StartsWithOneSlash(r.path);
  }

  lemma UpperTwice(s: string)
    requires Safe(Upper(s))
    ensures Upper(Upper(s)) == Upper(s)
  {
    assert forall i :: 0 <= i < |s| ==> !Lower(Upper(s)[i]);
  }

  lemma DeniedNoRepeats()
    ensures NoRepeats(DENIED)
  {
    var lengths := [4, 3, 5, 6, 7, 5];
    assert forall i :: 0 <= i < 6 ==> |DENIED[i]| == lengths[i];
    assert DENIED[2][0] == 'P' && DENIED[5][0] == 'T';
  }

  lemma RouteNormalizes(r: Route, d: Defaults)
    requires RouteValid(r) && TimeoutOk(d.timeout) && BodyOk(d.maxBody)
    ensures RouteValid(NormalRoute(r, d)) && NormalRoute(NormalRoute(r, d), d) == NormalRoute(r, d)
  {
    UpperTwice(r.verb);
  }

  /** Validating what validation returned changes nothing, so checking a loaded manifest again is harmless. */
  lemma NormalIsStable(m: Manifest)
    requires ManifestValid(m)
    ensures ManifestValid(Normal(m)) && Normal(Normal(m)) == Normal(m)
  {
    var n := Normal(m);
    DeniedNoRepeats();
    forall i | 0 <= i < |n.routes| ensures RouteValid(n.routes[i]) && NormalRoute(n.routes[i], m.defaults) == n.routes[i] {
      RouteNormalizes(m.routes[i], m.defaults);
    }
    assert Normal(n).routes == n.routes;
  }

  // ---- _public_route and _public_readback_manifest ----

  predicate EndsWith(s: string, suffix: string) { |s| >= |suffix| && s[|s| - |suffix|..] == suffix }

  const INDEX := "/index.html"

  function MappedRoute(relative: string): Option<(string, int)> {
    if relative == "index.html" then Some(("/", 200))
    else if relative == "404.html" then Some((MISSING_ROUTE, 404))
    else if "ui/" <= relative && EndsWith(relative, INDEX) then
      Some(("/" + relative[..|relative| - |INDEX|], 200))
    else if "servers/" <= relative && EndsWith(relative, "/badge.json") then Some(("/" + relative, 200))
    else None
  }

  function PublicRoute(relative: string): Option<(string, int)> {
    var mapped := MappedRoute(relative);
    if mapped.Some? && IsRoute(mapped.value.0) then mapped else None
  }

  lemma UiRoute(a: string)
    requires "ui/" <= a && EndsWith(a, INDEX)
    ensures |a| >= |INDEX| + 2 && "ui" <= a[..|a| - |INDEX|]
    ensures a == a[..|a| - |INDEX|] + INDEX
  {
    var suffix := a[|a| - |INDEX|..];
    assert suffix[0] == '/' && suffix[1] == 'i' && a[0] == 'u' && a[1] == 'i';
    assert suffix[0] == a[|a| - |INDEX|];
  }

  /** No two files share a route. */
  lemma PublicRouteInjective(a: string, b: string)
    requires PublicRoute(a).Some? && PublicRoute(b).Some? && PublicRoute(a).value.0 == PublicRoute(b).value.0
    ensures a == b
  {
    var r := PublicRoute(a).value.0;
    RouteKind(a);
    RouteKind(b);
    assert r == "/" + r[1..];
  }

  /** What a route says about the file it came from. */
  lemma RouteKind(a: string)
    requires PublicRoute(a).Some?
    ensures var r := PublicRoute(a).value.0;
      && |r| > 0
      && a == if r == "/" then "index.html" else if r == MISSING_ROUTE then "404.html"
              else if r[1] == 'u' then r[1..] + INDEX else r[1..]
  {
    if "ui/" <= a && EndsWith(a, INDEX) { UiRoute(a); }
  }

  datatype File = File(path: string, bytes: int, digest: string)

  predicate Published(f: File) { f.path != "vercel.json" }

  function PublicFiles(files: seq<File>): seq<File> {
    if files == [] then []
    else PublicFiles(files[..|files| - 1]) + if Published(files[|files| - 1]) then [files[|files| - 1]] else []
  }

  const DIGEST_PREFIX := "sha256:"

  function DigitOf(n: nat): char
    requires n < 10
  {
    '0' + n as char
  }

  function RouteId(i: nat): string
    requires i < 1000
  {
    "route-" + [DigitOf(i / 100), DigitOf(i / 10 % 10), DigitOf(i % 10)]
  }

  lemma RouteIdsDiffer(i: nat, j: nat)
    requires i < 1000 && j < 1000 && RouteId(i) == RouteId(j)
    ensures i == j
  {
    var a, b := RouteId(i), RouteId(j);
    assert a[6] == b[6] && a[7] == b[7] && a[8] == b[8];
  }

  /** What one file contributes to its route. */
  datatype Exact = Exact(path: string, status: int, digest: string)

  function ExactOf(f: File): Option<Exact> {
    var route := PublicRoute(f.path);
    if route.Some? && DIGEST_PREFIX <= f.digest
    then Some(Exact(route.value.0, route.value.1, f.digest[|DIGEST_PREFIX|..])) else None
  }

  type Mapper = File -> Option<Exact>

  const EXACT: Mapper := f => ExactOf(f)

  function RouteFor(i: nat, e: Exact): Route
    requires i < 1000
  {
    Route(RouteId(i), "GET", e.path, e.status, None, None, [], [], None, Some(e.digest))
  }

  function Largest(files: seq<File>): int {
    if files == [] then 1
    else
      var rest, last := Largest(files[..|files| - 1]), files[|files| - 1].bytes;
      if last > rest then last else rest
  }

  predicate AllMapped(shown: seq<File>, exact: Mapper) { forall i :: 0 <= i < |shown| ==> exact(shown[i]).Some? }

  predicate ManifestBuilds(files: seq<File>) {
    var shown := PublicFiles(files);
    1 <= |shown| <= MAX_ROUTES && AllMapped(shown, EXACT) && Largest(shown) <= MAX_BODY
  }

  function RoutesFor(shown: seq<File>, exact: Mapper): seq<Route>
    requires |shown| <= MAX_ROUTES && AllMapped(shown, exact)
  {
    seq(|shown|, i requires 0 <= i < |shown| => RouteFor(i, exact(shown[i]).value))
  }

  function PublicManifest(files: seq<File>): Manifest
    requires ManifestBuilds(files)
  {
    var shown := PublicFiles(files);
    Manifest(SCHEMA, VERSION, "mcp-trust-site-candidate-exact", Defaults(10.0, Largest(shown), false), DENIED,
             RoutesFor(shown, EXACT))
  }

  method MapFiles(shown: seq<File>, exact: Mapper) returns (r: Result<(seq<Route>, int)>)
    requires |shown| <= MAX_ROUTES
    ensures r.Ok? <==> AllMapped(shown, exact)
    ensures r.Ok? ==> r.value.0 == RoutesFor(shown, exact) && r.value.1 == Largest(shown)
  {
    var routes: seq<Route> := [];
    var largest := 1;
    var i := 0;
    Prefixes(shown);
    while i < |shown|
      invariant 0 <= i <= |shown| && |routes| == i
      invariant forall k :: 0 <= k < i ==> exact(shown[k]).Some? && routes[k] == RouteFor(k, exact(shown[k]).value)
      invariant largest == Largest(shown[..i])
    {
      var e := exact(shown[i]);
      if e.None? { return Raised; }
      LargestNext(shown, i);
      routes := routes + [RouteFor(i, e.value)];
      if shown[i].bytes > largest { largest := shown[i].bytes; }
      i := i + 1;
    }
    r := Ok((routes, largest));
  }

  lemma Prefixes(shown: seq<File>)
    ensures shown[..0] == [] && shown[..|shown|] == shown
  {
  }

  lemma LargestNext(shown: seq<File>, i: nat)
    requires i < |shown|
    ensures var before := Largest(shown[..i]);
      Largest(shown[..i + 1]) == if shown[i].bytes > before then shown[i].bytes else before
  {
    assert shown[..i + 1][..i] == shown[..i];
  }

  /** _public_readback_manifest */
  method PublicReadbackManifest(files: seq<File>) returns (r: Result<Manifest>)
    ensures r.Ok? <==> ManifestBuilds(files)
    ensures r.Ok? ==> r.value == PublicManifest(files) && ManifestShows(r.value, PublicFiles(files))
  {
    var shown := PublicFiles(files);
    if !(1 <= |shown| <= MAX_ROUTES) { return Raised; }
    var mapped := MapFiles(shown, EXACT);
    if mapped.Raised? || mapped.value.1 > MAX_BODY { return Raised; }
    r := Ok(Manifest(SCHEMA, VERSION, "mcp-trust-site-candidate-exact", Defaults(10.0, mapped.value.1, false), DENIED,
                     mapped.value.0));
    LargestBounds(shown);
    forall i | 0 <= i < |shown| ensures Shows(r.value.routes[i], shown[i]) { FileShown(i, shown[i]); }
  }

  /** The published files in order, a route each; the body limit is the largest of them. */
  predicate ManifestShows(m: Manifest, shown: seq<File>) {
    && m.defaults.timeout == 10.0 && !m.defaults.follow && 1 <= m.defaults.maxBody <= 16_777_216
    && (forall i :: 0 <= i < |shown| ==> shown[i].bytes <= m.defaults.maxBody)
    && (m.defaults.maxBody == 1 || exists f :: f in shown && f.bytes == m.defaults.maxBody)
    && 1 <= |shown| <= 128 && |m.routes| == |shown| && forall i :: 0 <= i < |shown| ==> Shows(m.routes[i], shown[i])
  }

  /** A route reads back one file: the front page, the missing page, a page of the site or a server's badge. */
  predicate Shows(r: Route, f: File) {
    && r.verb == "GET" && r.digest.Some? && f.digest == "sha256:" + r.digest.value
    && r.timeout.None? && r.maxBody.None? && r.required == [] && r.forbidden == [] && r.exact.None?
    && (f.path == "index.html" ==> r.path == "/" && r.status == 200)
    && (f.path == "404.html" ==> r.path == "/__mcp_trust_candidate_missing__" && r.status == 404)
    && (f.path != "index.html" && f.path != "404.html" ==> r.status == 200 && (PageAt(r.path, f) || BadgeAt(r.path, f)))
  }

  predicate PageAt(path: string, f: File) {
    "/ui" <= path && f.path == path[1..] + "/index.html"
  }

  predicate BadgeAt(path: string, f: File) {
    "/servers/" <= path && f.path == path[1..] && exists k :: 0 <= k <= |path| && path[k..] == "/badge.json"
  }

  lemma FileShown(i: nat, f: File)
    requires i < 1000 && ExactOf(f).Some?
    ensures Shows(RouteFor(i, ExactOf(f).value), f)
  {
    var path := ExactOf(f).value.path;
    assert f.digest == DIGEST_PREFIX + f.digest[|DIGEST_PREFIX|..];
    if f.path != "index.html" && f.path != "404.html" {
      if "ui/" <= f.path && EndsWith(f.path, INDEX) {
        UiRoute(f.path);
        assert PageAt(path, f);
      } else {
        assert path == "/" + f.path && path[1..] == f.path;
        assert path[|path| - |"/badge.json"|..] == f.path[|f.path| - |"/badge.json"|..];
        assert BadgeAt(path, f);
      }
    }
  }

  lemma {:induction false} LargestBounds(shown: seq<File>)
    ensures Largest(shown) >= 1 && forall i :: 0 <= i < |shown| ==> shown[i].bytes <= Largest(shown)
    ensures Largest(shown) == 1 || exists f :: f in shown && f.bytes == Largest(shown)
  {
    if shown != [] {
      var init, last := shown[..|shown| - 1], shown[|shown| - 1];
      LargestBounds(init);
      assert shown == init + [last];
      assert forall i :: 0 <= i < |init| ==> shown[i] == init[i];
      if Largest(shown) != 1 {
        if last.bytes > Largest(init) {
          assert last in shown && last.bytes == Largest(shown);
        } else {
          var f :| f in init && f.bytes == Largest(init);
          assert f in shown;
        }
      }
    }
  }

  /** Every file but the deployment configuration is published. */
  lemma {:induction false} PublishedFiles(files: seq<File>)
    ensures forall f :: f in PublicFiles(files) <==> f in files && f.path != "vercel.json"
  {
    if files != [] {
      PublishedFiles(files[..|files| - 1]);
      assert files == files[..|files| - 1] + [files[|files| - 1]];
    }
  }

  predicate DifferentPaths(files: seq<File>) {
    forall i, j :: 0 <= i < j < |files| ==> files[i].path != files[j].path
  }

  predicate DigestsSound(files: seq<File>) {
    forall i :: 0 <= i < |files| ==> DIGEST_PREFIX <= files[i].digest && IsHexDigest(files[i].digest[|DIGEST_PREFIX|..])
  }

  lemma {:induction false} PublicFilesKeep(files: seq<File>)
    requires DifferentPaths(files) && DigestsSound(files)
    ensures DifferentPaths(PublicFiles(files)) && DigestsSound(PublicFiles(files))
    ensures forall f :: f in PublicFiles(files) ==> f in files
  {
    if files != [] {
      var init, last := files[..|files| - 1], files[|files| - 1];
      PublicFilesKeep(init);
      var shown := PublicFiles(init);
      forall i | 0 <= i < |shown| ensures shown[i].path != last.path {
        assert shown[i] in init;
        var k :| 0 <= k < |init| && init[k] == shown[i];
        assert files[k].path != files[|files| - 1].path;
      }
    }
  }

  lemma {:induction false} LargestAtLeastOne(files: seq<File>)
    ensures Largest(files) >= 1
  {
    if files != [] { LargestAtLeastOne(files[..|files| - 1]); }
  }

  lemma RouteForValid(i: nat, f: File)
    requires i < 1000 && ExactOf(f).Some? && IsHexDigest(f.digest[|DIGEST_PREFIX|..])
    ensures RouteValid(RouteFor(i, ExactOf(f).value))
  {
    assert Upper("GET") == "GET";
    RouteIdIsId(i);
  }

  lemma RouteIdIsId(i: nat)
    requires i < 1000
    ensures IsId(RouteId(i))
  {
    var id := RouteId(i);
    assert id[..6] == "route-";
    assert forall k :: 0 <= k < 6 ==> id[k] == "route-"[k];
  }

  /** Whatever site candidate the producer accepts, with distinct files and well-formed digests, the validator
      accepts its manifest, and no two of its routes are the same. */
  lemma PublicManifestIsValid(files: seq<File>)
    requires ManifestBuilds(files) && DifferentPaths(files) && DigestsSound(files)
    ensures ManifestValid(PublicManifest(files))
    ensures var routes := PublicManifest(files).routes;
      forall i, j :: 0 <= i < j < |routes| ==> routes[i].path != routes[j].path
  {
    var shown, m := PublicFiles(files), PublicManifest(files);
    PublicFilesKeep(files);
    LargestAtLeastOne(shown);
    DeniedNoRepeats();
    forall i | 0 <= i < |shown| ensures RouteValid(m.routes[i]) { RouteForValid(i, shown[i]); }
    forall i, j | 0 <= i < j < |shown| ensures m.routes[i].id != m.routes[j].id && m.routes[i].path != m.routes[j].path {
      if RouteId(i) == RouteId(j) { RouteIdsDiffer(i, j); }
      if m.routes[i].path == m.routes[j].path { PublicRouteInjective(shown[i].path, shown[j].path); }
    }
    NameIsId();
  }

  lemma NameIsId()
    ensures IsId("mcp-trust-site-candidate-exact")
  {
  }
}
