/** Ordered discovery of authorization metadata (RFC 9728 section 3.1, RFC 8414 sections 3.1 and 3.3).

    The network is an arbitrary function from the number of fetches so far and a URL to a parsed document, so
    it may answer differently when asked again. */
module Discovery {
  import opened Results

  const RESOURCE_WELL_KNOWN := "/.well-known/oauth-protected-resource"
  const SERVER_WELL_KNOWN := "/.well-known/oauth-authorization-server"
  const OPENID_WELL_KNOWN := "/.well-known/openid-configuration"
  const MAX_SERVERS := 8

  /** A bound HTTPS URL: its origin has no path, and its path starts with a slash. */
  datatype Url = Url(origin: string, path: string)

  function Text(u: Url): string { u.origin + u.path }

  /** What `_bound_https_url` makes of a string; which strings it refuses is left open. */
  type Binder = string -> Option<Url>

  datatype Document = Document(
    resource: Option<string>, servers: Option<seq<string>>, issuer: Option<string>, methods: Option<seq<string>>,
    restValid: bool)

  type Network = (nat, string) -> Option<Document>

  // ---- candidates ----

  function TrimRight(s: string): (t: string)
    ensures t <= s && (t == "" || t[|t| - 1] != '/')
    ensures forall i :: |t| <= i < |s| ==> s[i] == '/'
  {
    if s != "" && s[|s| - 1] == '/' then TrimRight(s[..|s| - 1]) else s
  }

  function TrimLeft(s: string): (t: string)
    ensures |t| <= |s| && s[|s| - |t|..] == t && (t == "" || t[0] != '/')
    ensures forall i :: 0 <= i < |s| - |t| ==> s[i] == '/'
  {
    if s != "" && s[0] == '/' then TrimLeft(s[1..]) else s
  }

  function Trim(s: string): string { TrimRight(TrimLeft(s)) }

  /** The well-known segment goes between the host and the resource path; the root is the fallback. */
  function ResourceCandidates(resource: Url): seq<string> {
    var path := TrimRight(resource.path);
    (if path != "" then [resource.origin + RESOURCE_WELL_KNOWN + path] else [])
    + [resource.origin + RESOURCE_WELL_KNOWN]
  }

  function ServerCandidates(issuer: Url): seq<string> {
    var path := Trim(issuer.path);
    if path == "" then [issuer.origin + SERVER_WELL_KNOWN, issuer.origin + OPENID_WELL_KNOWN]
    else [issuer.origin + SERVER_WELL_KNOWN + "/" + path,
          issuer.origin + OPENID_WELL_KNOWN + "/" + path,
          issuer.origin + "/" + path + OPENID_WELL_KNOWN]
  }

  predicate AllDifferent(s: seq<string>) { forall i, j :: 0 <= i < j < |s| ==> s[i] != s[j] }

  /** Removing repeated resource candidates never removes anything. */
  lemma ResourceCandidatesDiffer(resource: Url)
    ensures AllDifferent(ResourceCandidates(resource))
  {
    var r := ResourceCandidates(resource);
    assert |r| == 2 ==> |r[0]| > |r[1]|;
  }

  /** `OPENID_WELL_KNOWN` written one or more times. */
  predicate Repeated(s: string)
    decreases |s|
  {
    s == OPENID_WELL_KNOWN || (OPENID_WELL_KNOWN <= s && Repeated(s[|OPENID_WELL_KNOWN|..]))
  }

  /** A string commutes with the well-known segment exactly when it repeats it. */
  lemma {:induction false} Commutes(x: string)
    requires x != ""
    ensures OPENID_WELL_KNOWN + x == x + OPENID_WELL_KNOWN <==> Repeated(x)
    decreases |x|
  {
    var w := OPENID_WELL_KNOWN;
    if w <= x {
      var rest := x[|w|..];
      assert x == w + rest;
      assert w + x == x + w <==> w + rest == rest + w by {
        assert w + x == w + (w + rest) && x + w == w + (rest + w);
        assert (w + (w + rest))[|w|..] == w + rest && (w + (rest + w))[|w|..] == rest + w;
      }
      if rest == "" { assert x == w; } else { Commutes(rest); }
    } else if w + x == x + w {
      ShortDiffers(x);
    }
  }

  /** Both ends of the segment would have to agree after a shift by |x|; its slashes forbid it. */
  lemma ShortDiffers(x: string)
    requires x != "" && !(OPENID_WELL_KNOWN <= x)
    ensures OPENID_WELL_KNOWN + x != x + OPENID_WELL_KNOWN
  {
    var w := OPENID_WELL_KNOWN;
    if |x| >= |w| {
      assert w == (w + x)[..|w|] && x[..|w|] == (x + w)[..|w|];
    } else {
      var l, r, n := w + x, x + w, |x|;
      assert r[n] == w[0] == '/' && r[n + 1] == w[1] == '.';
      assert l[n] == w[n] && (n + 1 < |w| ==> l[n + 1] == w[n + 1]);
      assert n + 1 == |w| ==> w[n] == 'n';
      assert 0 < n && n + 1 < |w| ==> !(w[n] == '/' && w[n + 1] == '.');
    }
  }

  /** The three places looked up for an issuer differ, unless its path is the OpenID well-known path itself,
      repeated or not: then one address is fetched twice. */
  lemma ServerCandidatesDiffer(issuer: Url)
    ensures AllDifferent(ServerCandidates(issuer)) <==> !Repeated("/" + Trim(issuer.path))
  {
    var path, o := Trim(issuer.path), issuer.origin;
    if path == "" {
      assert |ServerCandidates(issuer)[0]| != |ServerCandidates(issuer)[1]|;
      assert "/" + path == "/";
    } else {
      LastTwo(o, path);
      ThreeDiffer(o, path);
    }
  }

  /** Such an issuer: its second and third candidates are one address. */
  lemma OneAddressTwice(origin: string)
    ensures var s := ServerCandidates(Url(origin, OPENID_WELL_KNOWN)); |s| == 3 && s[1] == s[2]
  {
    var p := OPENID_WELL_KNOWN;
    assert p == "/" + p[1..] && p[1] == '.' && p[|p| - 1] == 'n';
    assert TrimLeft(p[1..]) == p[1..];
    assert TrimRight(p[1..]) == p[1..];
    assert Trim(p) == p[1..];
    LastTwo(origin, p[1..]);
  }

  lemma ThreeDiffer(o: string, path: string)
    ensures var s := [o + SERVER_WELL_KNOWN + "/" + path, o + OPENID_WELL_KNOWN + "/" + path, o + "/" + path + OPENID_WELL_KNOWN];
      AllDifferent(s) <==> s[1] != s[2]
  {
    var s := [o + SERVER_WELL_KNOWN + "/" + path, o + OPENID_WELL_KNOWN + "/" + path, o + "/" + path + OPENID_WELL_KNOWN];
    assert |s[0]| != |s[1]| && |s[0]| != |s[2]|;
  }

  lemma LastTwo(o: string, path: string)
    ensures o + OPENID_WELL_KNOWN + "/" + path == o + "/" + path + OPENID_WELL_KNOWN <==> Repeated("/" + path)
  {
    var x := "/" + path;
    var l, r := OPENID_WELL_KNOWN + x, x + OPENID_WELL_KNOWN;
    assert o + OPENID_WELL_KNOWN + "/" + path == o + l;
    assert o + "/" + path + OPENID_WELL_KNOWN == o + r;
    assert (o + l)[|o|..] == l && (o + r)[|o|..] == r;
    Commutes(x);
  }

  /** Two resources of one origin with the same first candidate have the same path up to trailing slashes. */
  lemma CandidateNamesResource(a: Url, b: Url)
    requires a.origin == b.origin && ResourceCandidates(a)[0] == ResourceCandidates(b)[0]
    ensures TrimRight(a.path) == TrimRight(b.path)
  {
    var x, y := TrimRight(a.path), TrimRight(b.path);
    var head := a.origin + RESOURCE_WELL_KNOWN;
    assert ResourceCandidates(a)[0] == head + x && ResourceCandidates(b)[0] == head + y;
    assert (head + x)[|head|..] == x && (head + y)[|head|..] == y;
  }

  /** A challenge may only point at the resource's own origin, and then it is the one candidate. */
  function Candidates(resource: Url, challenge: Option<string>, bind: Binder): (r: Result<seq<string>>)
    ensures r.Ok? ==> 0 < |r.value| <= 2
  {
    if challenge.None? then Ok(ResourceCandidates(resource))
    else
      var metadata := bind(challenge.value);
      if metadata.None? || metadata.value.origin != resource.origin then Raised
      else Ok([Text(metadata.value)])
  }

  // ---- validation ----

  predicate Distinct(s: seq<string>) { forall i, j :: 0 <= i < j < |s| ==> s[i] != s[j] }

  /** _string_list with `required` */
  predicate StringList(s: seq<string>, maximum: nat) {
    && 0 < |s| <= maximum && (forall i :: 0 <= i < |s| ==> 0 < |s[i]| <= 512) && Distinct(s)
  }

  predicate ResourceValid(d: Document, resource: Url, bind: Binder) {
    && d.resource.Some? && bind(d.resource.value).Some? && Text(bind(d.resource.value).value) == Text(resource)
    && d.servers.Some? && StringList(d.servers.value, MAX_SERVERS)
    && (forall i :: 0 <= i < |d.servers.value| ==> bind(d.servers.value[i]).Some?)
    && d.restValid
  }

  /** The issuer string must be identical, not merely the same URL. */
  predicate ServerValid(d: Document, issuer: string) {
    && d.issuer == Some(issuer)
    && d.methods.Some? && StringList(d.methods.value, 16) && "S256" in d.methods.value
    && d.restValid
  }

  // ---- first valid candidate ----

  type Check = Document -> bool

  predicate Answers(network: Network, at: nat, url: string, check: Check) {
    var d := network(at, url);
    d.Some? && check(d.value)
  }

  /** How many candidates are fetched when the fetching starts after `at` others: up to the first valid one. */
  function Fetched(network: Network, at: nat, urls: seq<string>, check: Check): (n: nat)
    ensures n <= |urls|
    decreases |urls|
  {
    if urls == [] then 0
    else if Answers(network, at, urls[0], check) then 1
    else 1 + Fetched(network, at + 1, urls[1..], check)
  }

  /** Which of them is accepted. */
  function Accepted(network: Network, at: nat, urls: seq<string>, check: Check): (k: Option<nat>)
    ensures k.Some? ==> k.value < |urls| && Fetched(network, at, urls, check) == k.value + 1
    ensures k.None? ==> Fetched(network, at, urls, check) == |urls|
    decreases |urls|
  {
    if urls == [] then None
    else if Answers(network, at, urls[0], check) then Some(0)
    else
      var later := Accepted(network, at + 1, urls[1..], check);
      if later.None? then None else Some(later.value + 1)
  }

  ghost predicate FirstAt(network: Network, at: nat, urls: seq<string>, check: Check, k: nat) {
    && k < |urls| && Answers(network, at + k, urls[k], check)
    && forall i :: 0 <= i < k ==> !Answers(network, at + i, urls[i], check)
  }

  /** The accepted candidate is the first in order that fetches and validates, and nothing after it is fetched;
      when none does, all are fetched. */
  lemma {:induction false} AcceptedIsFirst(network: Network, at: nat, urls: seq<string>, check: Check)
    ensures forall k: nat :: Accepted(network, at, urls, check) == Some(k) <==> FirstAt(network, at, urls, check, k)
    ensures Accepted(network, at, urls, check).None? <==>
      forall i :: 0 <= i < |urls| ==> !Answers(network, at + i, urls[i], check)
    decreases |urls|
  {
    if urls != [] && !Answers(network, at, urls[0], check) {
      var rest := urls[1..];
      AcceptedIsFirst(network, at + 1, rest, check);
      assert forall i: nat :: i < |rest| ==> (Answers(network, at + 1 + i, rest[i], check)
        <==> Answers(network, at + (i + 1), urls[i + 1], check));
      forall k: nat
        ensures Accepted(network, at, urls, check) == Some(k) <==> FirstAt(network, at, urls, check, k)
      {
        if k > 0 { FirstShifts(network, at, urls, check, k); }
      }
      forall i | 0 <= i < |urls| && Accepted(network, at, urls, check).None?
        ensures !Answers(network, at + i, urls[i], check)
      {
        if i > 0 { assert !Answers(network, at + 1 + (i - 1), rest[i - 1], check); }
      }
      if Accepted(network, at, urls, check).Some? {
        assert FirstAt(network, at, urls, check, Accepted(network, at, urls, check).value);
      }
    }
  }

  lemma FirstShifts(network: Network, at: nat, urls: seq<string>, check: Check, k: nat)
    requires urls != [] && !Answers(network, at, urls[0], check) && k > 0
    ensures FirstAt(network, at, urls, check, k) <==> FirstAt(network, at + 1, urls[1..], check, k - 1)
  {
    if FirstAt(network, at + 1, urls[1..], check, k - 1) {
      forall i | 0 <= i < k ensures !Answers(network, at + i, urls[i], check) {
        if i > 0 { assert !Answers(network, at + 1 + (i - 1), urls[1..][i - 1], check); }
      }
    }
    if FirstAt(network, at, urls, check, k) {
      forall i | 0 <= i < k - 1 ensures !Answers(network, at + 1 + i, urls[1..][i], check) {
        assert !Answers(network, at + (i + 1), urls[i + 1], check);
      }
    }
  }

  // ---- the probe ----

  datatype Server = Server(issuer: string, metadataUrl: Option<string>)

  datatype State = Unknown | MetadataReady

  datatype Posture = Posture(
    state: State, resourceUrl: Option<string>, servers: seq<Server>, fetches: seq<string>, partial: bool)

  /** One pass over a candidate list: the log grows by exactly what was fetched. */
  method Discover(network: Network, log: seq<string>, urls: seq<string>, check: Check)
    returns (fetches: seq<string>, found: Option<(string, Document)>)
    ensures fetches == log + urls[..Fetched(network, |log|, urls, check)]
    ensures var k := Accepted(network, |log|, urls, check);
      if k.Some? then
        && k.value < |urls| && found.Some? && found.value.0 == urls[k.value]
        && network(|log| + k.value, urls[k.value]) == Some(found.value.1) && check(found.value.1)
      else found.None?
  {
    AcceptedIsFirst(network, |log|, urls, check);
    fetches, found := log, None;
    var i := 0;
    while i < |urls|
      invariant 0 <= i <= |urls| && fetches == log + urls[..i]
      invariant forall k :: 0 <= k < i ==> !Answers(network, |log| + k, urls[k], check)
    {
      var url := urls[i];
      var document := network(|fetches|, url);
      fetches := fetches + [url];
      assert urls[..i + 1] == urls[..i] + [url];
      if document.Some? && check(document.value) {
        assert FirstAt(network, |log|, urls, check, i);
        return fetches, Some((url, document.value));
      }
      i := i + 1;
    }
  }

  function CheckFor(issuer: string): Check { d => ServerValid(d, issuer) }

  /** Where to look for an issuer's metadata. */
  type Lookup = string -> seq<string>

  function LookupFor(bind: Binder): Lookup { issuer => UrlsFor(issuer, bind) }

  function UrlsFor(issuer: string, bind: Binder): (urls: seq<string>)
    ensures |urls| <= 3
  {
    if bind(issuer).Some? then ServerCandidates(bind(issuer).value) else []
  }

  datatype Found = Found(server: Server, fetches: seq<string>)

  datatype Trail = Trail(servers: seq<Server>, fetches: seq<string>)

  /** The outcome for one issuer and what was fetched for it. */
  function Outcome(network: Network, lookup: Lookup, at: nat, issuer: string): (r: Found)
    ensures |r.fetches| <= |lookup(issuer)| && r.server.issuer == issuer
  {
    var urls, check := lookup(issuer), CheckFor(issuer);
    var k := Accepted(network, at, urls, check);
    Found(Server(issuer, if k.Some? then Some(urls[k.value]) else None), urls[..Fetched(network, at, urls, check)])
  }

  type Step = (nat, string) -> Found

  function StepFor(network: Network, lookup: Lookup): Step {
    (at: nat, issuer: string) => Outcome(network, lookup, at, issuer)
  }

  /** The outcome for each listed issuer, in order, with its fetches. */
  function Trailed(step: Step, at: nat, issuers: seq<string>): (r: Trail)
    ensures |r.servers| == |issuers|
    decreases |issuers|
  {
    if issuers == [] then Trail([], [])
    else
      var before := Trailed(step, at, issuers[..|issuers| - 1]);
      var last := step(at + |before.fetches|, issuers[|issuers| - 1]);
      Trail(before.servers + [last.server], before.fetches + last.fetches)
  }

  function Probed(network: Network, lookup: Lookup, at: nat, issuers: seq<string>): (r: Trail)
    ensures |r.servers| == |issuers|
  {
    Trailed(StepFor(network, lookup), at, issuers)
  }

  function Ready(servers: seq<Server>): nat {
    if servers == [] then 0
    else Ready(servers[..|servers| - 1]) + if servers[|servers| - 1].metadataUrl.Some? then 1 else 0
  }

  lemma {:induction false} ReadyCounts(servers: seq<Server>)
    ensures Ready(servers) <= |servers|
    ensures Ready(servers) > 0 <==> exists i :: 0 <= i < |servers| && servers[i].metadataUrl.Some?
    ensures Ready(servers) == |servers| <==> forall i :: 0 <= i < |servers| ==> servers[i].metadataUrl.Some?
  {
    if servers != [] {
      var init := servers[..|servers| - 1];
      ReadyCounts(init);
      assert forall i :: 0 <= i < |init| ==> init[i] == servers[i];
      assert forall i :: 0 <= i < |servers| && i != |servers| - 1 ==> servers[i] == init[i];
      if Ready(init) > 0 {
        var i :| 0 <= i < |init| && init[i].metadataUrl.Some?;
        assert servers[i].metadataUrl.Some?;
      }
    }
  }

  method ProbeServer(network: Network, lookup: Lookup, log: seq<string>, issuer: string)
    returns (server: Server, fetches: seq<string>)
    ensures server == Outcome(network, lookup, |log|, issuer).server
    ensures fetches == log + Outcome(network, lookup, |log|, issuer).fetches
  {
    var found;
    fetches, found := Discover(network, log, lookup(issuer), CheckFor(issuer));
    server := Server(issuer, if found.Some? then Some(found.value.0) else None);
  }

  method ProbeServers(network: Network, lookup: Lookup, log: seq<string>, issuers: seq<string>)
    returns (servers: seq<Server>, fetches: seq<string>, ready: nat)
    ensures servers == Probed(network, lookup, |log|, issuers).servers
    ensures fetches == log + Probed(network, lookup, |log|, issuers).fetches
    ensures ready == Ready(servers)
  {
    servers, fetches, ready := [], log, 0;
    var i := 0;
    Prefixes(issuers);
    Nothing(log);
    ghost var step, trail := StepFor(network, lookup), Trail([], []);
    while i < |issuers|
      invariant 0 <= i <= |issuers|
      invariant trail == Trailed(step, |log|, issuers[..i])
      invariant servers == trail.servers && fetches == log + trail.fetches
      invariant ready == Ready(servers)
    {
      ghost var before := fetches;
      var server;
      server, fetches := ProbeServer(network, lookup, fetches, issuers[i]);
      trail := ProbedNext(step, log, before, issuers, i, trail);
      servers := servers + [server];
      ready := ready + if server.metadataUrl.Some? then 1 else 0;
      i := i + 1;
    }
    Prefixes(issuers);
  }

  lemma ProbedNext(step: Step, log: seq<string>, fetches: seq<string>, issuers: seq<string>, i: nat, trail: Trail)
    returns (next: Trail)
    requires i < |issuers| && trail == Trailed(step, |log|, issuers[..i])
    requires fetches == log + trail.fetches
    ensures var found := step(|fetches|, issuers[i]);
      && next == Trailed(step, |log|, issuers[..i + 1])
      && next.servers == trail.servers + [found.server]
      && log + next.fetches == fetches + found.fetches
      && Ready(next.servers) == Ready(trail.servers) + if found.server.metadataUrl.Some? then 1 else 0
  {
    next := Trailed(step, |log|, issuers[..i + 1]);
    assert issuers[..i + 1][..i] == issuers[..i];
    assert |fetches| == |log| + |trail.fetches|;
    TrailGrows(log, fetches, trail, step(|fetches|, issuers[i]), next);
  }

  lemma TrailGrows(log: seq<string>, fetches: seq<string>, trail: Trail, found: Found, next: Trail)
    requires next == Trail(trail.servers + [found.server], trail.fetches + found.fetches)
    requires fetches == log + trail.fetches
    ensures log + next.fetches == fetches + found.fetches
    ensures Ready(next.servers) == Ready(trail.servers) + if found.server.metadataUrl.Some? then 1 else 0
  {
    ReadyAdded(trail.servers, found.server);
    Regrouped(log, trail.fetches, found.fetches);
  }

  lemma Nothing<T>(s: seq<T>)
    ensures s + [] == s
  {
  }

  lemma Prefixes<T>(s: seq<T>)
    ensures s[..0] == [] && s[..|s|] == s
  {
  }

  lemma ReadyAdded(servers: seq<Server>, server: Server)
    ensures Ready(servers + [server]) == Ready(servers) + if server.metadataUrl.Some? then 1 else 0
  {
    assert (servers + [server])[..|servers|] == servers;
  }

  lemma Regrouped<T>(a: seq<T>, b: seq<T>, c: seq<T>)
    ensures a + (b + c) == a + b + c
  {
  }

  lemma {:induction false} FewFetches(network: Network, bind: Binder, at: nat, issuers: seq<string>)
    ensures |Probed(network, LookupFor(bind), at, issuers).fetches| <= 3 * |issuers|
    decreases |issuers|
  {
    if issuers != [] {
      FewFetches(network, bind, at, issuers[..|issuers| - 1]);
      var last := issuers[|issuers| - 1];
      assert |LookupFor(bind)(last)| <= 3;
    }
  }

  function ResourceCheck(resource: Url, bind: Binder): Check { d => ResourceValid(d, resource, bind) }

  /** What the resource candidates come to: the first valid document, and everything fetched so far. */
  datatype ResourceFound = ResourceFound(url: string, issuers: seq<string>)

  function ResourceOutcome(network: Network, bind: Binder, resource: Url, urls: seq<string>): Option<ResourceFound> {
    var check := ResourceCheck(resource, bind);
    var k := Accepted(network, 0, urls, check);
    if k.None? || network(k.value, urls[k.value]).None? || network(k.value, urls[k.value]).value.servers.None? then None
    else Some(ResourceFound(urls[k.value], network(k.value, urls[k.value]).value.servers.value))
  }

  method ProbeResource(network: Network, bind: Binder, resource: Url, urls: seq<string>)
    returns (fetches: seq<string>, found: Option<ResourceFound>)
    ensures found == ResourceOutcome(network, bind, resource, urls)
    ensures found.None? <==> Accepted(network, 0, urls, ResourceCheck(resource, bind)).None?
    ensures fetches == urls[..Fetched(network, 0, urls, ResourceCheck(resource, bind))]
    ensures found.Some? ==> |found.value.issuers| <= MAX_SERVERS
  {
    var document;
    fetches, document := Discover(network, [], urls, ResourceCheck(resource, bind));
    assert fetches == urls[..Fetched(network, 0, urls, ResourceCheck(resource, bind))];
    found := if document.None? then None else
      Some(ResourceFound(document.value.0, document.value.1.servers.value));
  }

  predicate Reported(p: Posture, network: Network, bind: Binder, resource: Url, urls: seq<string>) {
    var fetched := urls[..Fetched(network, 0, urls, ResourceCheck(resource, bind))];
    match ResourceOutcome(network, bind, resource, urls)
    case None => p.resourceUrl.None? && p.servers == [] && p.fetches == fetched
    case Some(found) =>
      var probed := Probed(network, LookupFor(bind), |fetched|, found.issuers);
      p.resourceUrl == Some(found.url) && p.servers == probed.servers && p.fetches == fetched + probed.fetches
  }

  // ---- what a posture proves, in the documents' own fields ----

  /** Some document at the reported address names the probed resource, and lists the reported issuers in order:
      at least one, at most eight, all different. */
  ghost predicate ResourceNamed(p: Posture, network: Network, bind: Binder, resource: Url) {
    p.resourceUrl.Some? ==> exists t: nat :: NamesResource(network(t, p.resourceUrl.value), p.servers, bind, resource)
  }

  predicate NamesResource(answer: Option<Document>, servers: seq<Server>, bind: Binder, resource: Url) {
    answer.Some? && var d := answer.value;
    && d.resource.Some? && bind(d.resource.value).Some?
    && bind(d.resource.value).value.origin + bind(d.resource.value).value.path == resource.origin + resource.path
    && d.servers.Some? && 0 < |d.servers.value| <= 8 && |d.servers.value| == |servers|
    && (forall i :: 0 <= i < |servers| ==> servers[i].issuer == d.servers.value[i] && bind(servers[i].issuer).Some?)
    && forall i, j :: 0 <= i < j < |servers| ==> servers[i].issuer != servers[j].issuer
  }

  /** Every metadata address reported has answered with the listed issuer string itself and with S256. */
  ghost predicate ServersConfirmed(p: Posture, network: Network) {
    forall i :: 0 <= i < |p.servers| && p.servers[i].metadataUrl.Some? ==>
      exists t: nat :: Confirms(network(t, p.servers[i].metadataUrl.value), p.servers[i].issuer)
  }

  predicate Confirms(answer: Option<Document>, issuer: string) {
    && answer.Some? && answer.value.issuer.Some? && answer.value.issuer.value == issuer
    && answer.value.methods.Some? && "S256" in answer.value.methods.value
  }

  /** A challenge that does not bind, or binds to another origin, is never followed; one that is, is asked first
      and is the only resource address there is. */
  predicate SameOriginOnly(p: Posture, resource: Url, challenge: Option<Url>) {
    if challenge.None? || challenge.value.origin != resource.origin then p.fetches == [] && p.resourceUrl.None?
    else
      && 0 < |p.fetches| && p.fetches[0] == challenge.value.origin + challenge.value.path
      && (p.resourceUrl.Some? ==> p.resourceUrl.value == p.fetches[0])
      && (p.resourceUrl.None? ==> |p.fetches| == 1)
  }

  lemma ReportProven(p: Posture, network: Network, bind: Binder, resource: Url, urls: seq<string>)
    requires Reported(p, network, bind, resource, urls)
    ensures ResourceNamed(p, network, bind, resource) && ServersConfirmed(p, network)
  {
    var check := ResourceCheck(resource, bind);
    var found := ResourceOutcome(network, bind, resource, urls);
    if found.Some? {
      AcceptedIsFirst(network, 0, urls, check);
      var k := Accepted(network, 0, urls, check).value;
      assert FirstAt(network, 0, urls, check, k);
      assert Answers(network, k, urls[k], check);
      var at, issuers := |urls[..Fetched(network, 0, urls, check)]|, found.value.issuers;
      forall i | 0 <= i < |p.servers|
        ensures p.servers[i].issuer == issuers[i]
        ensures p.servers[i].metadataUrl.Some? ==>
          exists t: nat :: Confirms(network(t, p.servers[i].metadataUrl.value), p.servers[i].issuer)
      {
        ServerConfirmed(network, LookupFor(bind), at, issuers, i);
      }
      assert NamesResource(network(k, p.resourceUrl.value), p.servers, bind, resource);
    }
  }

  lemma ServerConfirmed(network: Network, lookup: Lookup, at: nat, issuers: seq<string>, i: nat)
    requires i < |issuers|
    ensures var s := Probed(network, lookup, at, issuers).servers[i];
      && s.issuer == issuers[i]
      && (s.metadataUrl.Some? ==> exists t: nat :: Confirms(network(t, s.metadataUrl.value), issuers[i]))
  {
    FoundServersMatch(network, lookup, at, issuers, i);
    var s := Probed(network, lookup, at, issuers).servers[i];
    if s.metadataUrl.Some? {
      var t: nat :| Answers(network, t, s.metadataUrl.value, CheckFor(issuers[i]));
      assert Confirms(network(t, s.metadataUrl.value), issuers[i]);
    }
  }

  lemma ChallengeAsked(p: Posture, network: Network, bind: Binder, resource: Url, urls: seq<string>, challenge: Url)
    requires Reported(p, network, bind, resource, urls) && urls == [Text(challenge)] && challenge.origin == resource.origin
    ensures SameOriginOnly(p, resource, Some(challenge))
  {
    var fetched := urls[..Fetched(network, 0, urls, ResourceCheck(resource, bind))];
    assert |fetched| == 1 && fetched[0] == Text(challenge);
  }

  /** probe_authorization_posture.  It is ready exactly when some issuer that the first valid resource document
      lists has a metadata URL, and it never fetches more than 2 + 3*8 documents. */
  method Probe(network: Network, bind: Binder, resource: Url, challenge: Option<string>) returns (p: Posture)
    ensures |p.fetches| <= 26
    ensures p.state == MetadataReady <==> exists i :: 0 <= i < |p.servers| && p.servers[i].metadataUrl.Some?
    ensures p.partial <==> 0 < Ready(p.servers) < |p.servers|
    ensures var urls := Candidates(resource, challenge, bind);
      if urls.Raised? then p == Posture(Unknown, None, [], [], false)
      else Reported(p, network, bind, resource, urls.value)
    ensures ResourceNamed(p, network, bind, resource) && ServersConfirmed(p, network)
    ensures challenge.Some? ==> SameOriginOnly(p, resource, bind(challenge.value))
  {
    p := ProbeCandidates(network, bind, resource, challenge);
    var urls := Candidates(resource, challenge, bind);
    if urls.Ok? { ReportProven(p, network, bind, resource, urls.value); }
    if challenge.Some? && urls.Ok? { ChallengeAsked(p, network, bind, resource, urls.value, bind(challenge.value).value); }
  }

  method ProbeCandidates(network: Network, bind: Binder, resource: Url, challenge: Option<string>) returns (p: Posture)
    ensures |p.fetches| <= 26
    ensures p.state == MetadataReady <==> exists i :: 0 <= i < |p.servers| && p.servers[i].metadataUrl.Some?
    ensures p.partial <==> 0 < Ready(p.servers) < |p.servers|
    ensures var urls := Candidates(resource, challenge, bind);
      if urls.Raised? then p == Posture(Unknown, None, [], [], false)
      else Reported(p, network, bind, resource, urls.value)
  {
    var urls := Candidates(resource, challenge, bind);
    if urls.Raised? { return Posture(Unknown, None, [], [], false); }
    var fetches, found := ProbeResource(network, bind, resource, urls.value);
    if found.None? { return Posture(Unknown, None, [], fetches, false); }
    FewFetches(network, bind, |fetches|, found.value.issuers);
    var servers, ready;
    servers, fetches, ready := ProbeServers(network, LookupFor(bind), fetches, found.value.issuers);
    ReadyCounts(servers);
    p := Posture(if ready > 0 then MetadataReady else Unknown, Some(found.value.url), servers, fetches,
                 ready > 0 && ready != |servers|);
  }

  /** A server counts as found exactly when one of its own candidates was answered by a document whose issuer
      is the listed string itself; otherwise each candidate was asked once, in order, and none answered so. */
  lemma FoundServersMatch(network: Network, lookup: Lookup, at: nat, issuers: seq<string>, i: nat)
    requires i < |issuers|
    ensures Reflects(network, lookup, issuers[i], Probed(network, lookup, at, issuers).servers[i])
  {
    var t := StepAt(StepFor(network, lookup), at, issuers, i);
    FoundMatches(network, lookup, t, issuers[i]);
  }

  /** Each listed issuer is dealt with on its own, after some number of fetches. */
  lemma {:induction false} StepAt(step: Step, at: nat, issuers: seq<string>, i: nat) returns (t: nat)
    requires i < |issuers|
    ensures Trailed(step, at, issuers).servers[i] == step(t, issuers[i]).server
    decreases |issuers|
  {
    var init := issuers[..|issuers| - 1];
    if i < |init| {
      t := StepAt(step, at, init, i);
    } else {
      t := at + |Trailed(step, at, init).fetches|;
    }
  }

  ghost predicate Reflects(network: Network, lookup: Lookup, issuer: string, s: Server) {
    && s.issuer == issuer
    && match s.metadataUrl
       case Some(url) => AnsweredBy(network, url, issuer, lookup)
       case None => exists t: nat :: Silent(network, t, lookup(issuer), CheckFor(issuer))
  }

  ghost predicate AnsweredBy(network: Network, url: string, issuer: string, lookup: Lookup) {
    url in lookup(issuer) && exists t: nat :: Answers(network, t, url, CheckFor(issuer))
  }

  ghost predicate Silent(network: Network, t: nat, urls: seq<string>, check: Check) {
    forall k :: 0 <= k < |urls| ==> !Answers(network, t + k, urls[k], check)
  }

  lemma FoundMatches(network: Network, lookup: Lookup, at: nat, issuer: string)
    ensures Reflects(network, lookup, issuer, Outcome(network, lookup, at, issuer).server)
  {
    var urls, check := lookup(issuer), CheckFor(issuer);
    AcceptedIsFirst(network, at, urls, check);
    var k := Accepted(network, at, urls, check);
    if k.Some? {
      assert FirstAt(network, at, urls, check, k.value);
      assert Answers(network, at + k.value, urls[k.value], check);
    } else {
      assert Silent(network, at, urls, check);
    }
  }

  /** The same question always gets the same answer. */
  ghost predicate Steady(network: Network) { forall t: nat, u: nat, url :: network(t, url) == network(u, url) }

  /** On a steady network a listed issuer is found if and only if some candidate of it has valid metadata. */
  lemma FoundIffAnswered(network: Network, lookup: Lookup, at: nat, issuers: seq<string>, i: nat)
    requires i < |issuers| && Steady(network)
    ensures Probed(network, lookup, at, issuers).servers[i].metadataUrl.Some? <==>
      exists url :: AnsweredBy(network, url, issuers[i], lookup)
  {
    var s, urls, check := Probed(network, lookup, at, issuers).servers[i], lookup(issuers[i]), CheckFor(issuers[i]);
    FoundServersMatch(network, lookup, at, issuers, i);
    if s.metadataUrl.None? {
      var t: nat :| Silent(network, t, urls, check);
      forall url ensures !AnsweredBy(network, url, issuers[i], lookup) {
        NeverAnswered(network, t, urls, check, url);
      }
    }
  }

  lemma NeverAnswered(network: Network, t: nat, urls: seq<string>, check: Check, url: string)
    requires Steady(network) && Silent(network, t, urls, check)
    ensures url in urls ==> forall u: nat :: !Answers(network, u, url, check)
  {
    if url in urls {
      var k :| 0 <= k < |urls| && urls[k] == url;
      assert !Answers(network, t + k, urls[k], check);
      forall u: nat ensures !Answers(network, u, url, check) { assert network(u, url) == network(t + k, url); }
    }
  }

  // ---- the addresses written out ----

  predicate Slashes(s: string) { forall i :: 0 <= i < |s| ==> s[i] == '/' }

  /** Without slashes at either end. */
  predicate Bare(path: string) { path != "" && path[0] != '/' && path[|path| - 1] != '/' }

  lemma {:induction false} TrimRightIs(path: string, slashes: string)
    requires Slashes(slashes) && (path == "" || path[|path| - 1] != '/')
    ensures TrimRight(path + slashes) == path
    decreases |slashes|
  {
    if slashes == "" {
      assert path + slashes == path;
    } else {
      var fewer := slashes[..|slashes| - 1];
      assert (path + slashes)[..|path + slashes| - 1] == path + fewer;
      TrimRightIs(path, fewer);
    }
  }

  lemma {:induction false} TrimLeftIs(slashes: string, path: string)
    requires Slashes(slashes) && (path == "" || path[0] != '/')
    ensures TrimLeft(slashes + path) == path
    decreases |slashes|
  {
    if slashes == "" {
      assert slashes + path == path;
    } else {
      assert (slashes + path)[1..] == slashes[1..] + path;
      TrimLeftIs(slashes[1..], path);
    }
  }

  /** The answer is what it takes to believe an authorization server. */
  predicate Vouches(answer: Option<Document>, issuer: string) {
    answer.Some? && var d := answer.value;
    && d.issuer == Some(issuer) && d.restValid
    && d.methods.Some? && "S256" in d.methods.value && |d.methods.value| <= 16
    && (forall i :: 0 <= i < |d.methods.value| ==> 0 < |d.methods.value[i]| <= 512)
    && forall i, j :: 0 <= i < j < |d.methods.value| ==> d.methods.value[i] != d.methods.value[j]
  }

  /** On a steady network an issuer with a path is looked up at three addresses, in this order: both well-known
      segments between host and path, then the OpenID segment after the path. */
  lemma PathIssuerAddresses(
      network: Network, bind: Binder, at: nat, issuers: seq<string>, i: nat,
      origin: string, before: string, path: string, after: string)
    requires i < |issuers| && Steady(network)
    requires Slashes(before) && Bare(path) && Slashes(after)
    requires bind(issuers[i]) == Some(Url(origin, before + path + after))
    ensures var x, y, z := origin + "/.well-known/oauth-authorization-server" + "/" + path,
                           origin + "/.well-known/openid-configuration" + "/" + path,
                           origin + "/" + path + "/.well-known/openid-configuration";
      Probed(network, LookupFor(bind), at, issuers).servers[i].metadataUrl ==
        if Vouches(network(0, x), issuers[i]) then Some(x)
        else if Vouches(network(0, y), issuers[i]) then Some(y)
        else if Vouches(network(0, z), issuers[i]) then Some(z)
        else None
  {
    PathCandidates(Url(origin, before + path + after), before, path, after);
    FirstVouched(network, LookupFor(bind), at, issuers, i, UrlsFor(issuers[i], bind));
  }

  lemma PathCandidates(issuer: Url, before: string, path: string, after: string)
    requires Slashes(before) && Bare(path) && Slashes(after) && issuer.path == before + path + after
    ensures ServerCandidates(issuer) ==
      [issuer.origin + "/.well-known/oauth-authorization-server" + "/" + path,
       issuer.origin + "/.well-known/openid-configuration" + "/" + path,
       issuer.origin + "/" + path + "/.well-known/openid-configuration"]
  {
    assert before + path + after == before + (path + after);
    TrimLeftIs(before, path + after);
    TrimRightIs(path, after);
  }

  /** The first of an issuer's two or three addresses whose answer vouches for it. */
  lemma FirstVouched(network: Network, lookup: Lookup, at: nat, issuers: seq<string>, i: nat, urls: seq<string>)
    requires i < |issuers| && Steady(network) && lookup(issuers[i]) == urls && 2 <= |urls| <= 3
    ensures Probed(network, lookup, at, issuers).servers[i].metadataUrl ==
      if Vouches(network(0, urls[0]), issuers[i]) then Some(urls[0])
      else if Vouches(network(0, urls[1]), issuers[i]) then Some(urls[1])
      else if |urls| == 3 && Vouches(network(0, urls[2]), issuers[i]) then Some(urls[2])
      else None
  {
    var t := StepAt(StepFor(network, lookup), at, issuers, i);
    forall k | 0 <= k < |urls|
      ensures Answers(network, t + k, urls[k], CheckFor(issuers[i])) <==> Vouches(network(0, urls[k]), issuers[i])
    {
      assert network(t + k, urls[k]) == network(0, urls[k]);
    }
    FirstOf(network, t, urls, CheckFor(issuers[i]));
  }

  lemma FirstOf(network: Network, t: nat, urls: seq<string>, check: Check)
    requires 2 <= |urls| <= 3
    ensures Accepted(network, t, urls, check) ==
      if Answers(network, t, urls[0], check) then Some(0)
      else if Answers(network, t + 1, urls[1], check) then Some(1)
      else if |urls| == 3 && Answers(network, t + 2, urls[2], check) then Some(2) else None
  {
    AcceptedIsFirst(network, t, urls, check);
  }

  /** ... and an issuer without a path at two. */
  lemma RootIssuerAddresses(
      network: Network, bind: Binder, at: nat, issuers: seq<string>, i: nat, origin: string, slashes: string)
    requires i < |issuers| && Steady(network) && Slashes(slashes)
    requires bind(issuers[i]) == Some(Url(origin, slashes))
    ensures var x, y := origin + "/.well-known/oauth-authorization-server", origin + "/.well-known/openid-configuration";
      Probed(network, LookupFor(bind), at, issuers).servers[i].metadataUrl ==
        if Vouches(network(0, x), issuers[i]) then Some(x)
        else if Vouches(network(0, y), issuers[i]) then Some(y)
        else None
  {
    assert slashes + "" == slashes;
    TrimLeftIs(slashes, "");
    FirstVouched(network, LookupFor(bind), at, issuers, i, UrlsFor(issuers[i], bind));
  }

  /** Without a challenge a resource is looked up at its well-known address before its path, then at its host's. */
  lemma ResourceAddresses(resource: Url, bind: Binder, path: string, slashes: string)
    requires resource.path == path + slashes && Slashes(slashes) && (path == "" || path[|path| - 1] != '/')
    ensures var root := resource.origin + "/.well-known/oauth-protected-resource";
      Candidates(resource, None, bind) == Ok(if path == "" then [root] else [root + path, root])
  {
    TrimRightIs(path, slashes);
    var root := resource.origin + "/.well-known/oauth-protected-resource";
    assert ResourceCandidates(resource) == if path == "" then [root] else [root + path, root];
  }

  /** The answer is what it takes to believe a resource document. */
  predicate Describes(answer: Option<Document>, bind: Binder, resource: Url) {
    answer.Some? && var d := answer.value;
    && d.resource.Some? && bind(d.resource.value).Some? && d.restValid
    && bind(d.resource.value).value.origin + bind(d.resource.value).value.path == resource.origin + resource.path
    && d.servers.Some? && 0 < |d.servers.value| <= 8
    && (forall i :: 0 <= i < |d.servers.value| ==>
          0 < |d.servers.value[i]| <= 512 && bind(d.servers.value[i]).Some?)
    && forall i, j :: 0 <= i < j < |d.servers.value| ==> d.servers.value[i] != d.servers.value[j]
  }

  /** On a steady network the first address that describes the resource is the one reported. */
  lemma FirstDescribed(network: Network, bind: Binder, resource: Url, urls: seq<string>)
    requires Steady(network) && 1 <= |urls| <= 2
    ensures var found := ResourceOutcome(network, bind, resource, urls);
      if Describes(network(0, urls[0]), bind, resource) then
        found == Some(ResourceFound(urls[0], network(0, urls[0]).value.servers.value))
      else if |urls| == 2 && Describes(network(0, urls[1]), bind, resource) then
        found == Some(ResourceFound(urls[1], network(0, urls[1]).value.servers.value))
      else found == None
  {
    var check := ResourceCheck(resource, bind);
    AcceptedIsFirst(network, 0, urls, check);
    forall k: nat | k < |urls| ensures Answers(network, k, urls[k], check) <==> Describes(network(0, urls[k]), bind, resource) {
      assert network(k, urls[k]) == network(0, urls[k]);
    }
    FirstOfFew(network, urls, check);
  }

  lemma FirstOfFew(network: Network, urls: seq<string>, check: Check)
    requires 1 <= |urls| <= 2
    ensures Accepted(network, 0, urls, check) ==
      if Answers(network, 0, urls[0], check) then Some(0)
      else if |urls| == 2 && Answers(network, 1, urls[1], check) then Some(1) else None
  {
    AcceptedIsFirst(network, 0, urls, check);
  }
}
