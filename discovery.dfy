/**
 * Renderer discovery: the SSDP response parsing and de-duplication, the
 * device-description and service-description (SCPD) analysis that turns a
 * location into a renderer record, the five-minute cache, and lookup by name.
 *
 * Sockets and HTTP are abstracted: the SSDP responses received before the
 * search deadline are an input sequence, and `Network` maps each URL that
 * can be fetched and parsed to its already-parsed XML document.
 */
module Discovery {
  import opened Wrappers
  import opened Text
  import opened Urls

  const AvTransportType := "urn:schemas-upnp-org:service:AVTransport:1"
  const RenderingControlType := "urn:schemas-upnp-org:service:RenderingControl:1"
  /** The optional AVTransport:1 action that enables gapless preloading. */
  const SetNextAction := "SetNextAVTransportURI"
  const LocationHeader := "location:"
  /** Seconds a discovery result stays fresh. */
  const CacheTtl: real := 300.0

  /** A discovered media renderer (`DlnaRenderer`). */
  datatype Renderer = Renderer(
    name: string,
    udn: string,
    location: string,
    supportsNext: bool,
    avTransportControlUrl: string,
    renderingControlUrl: string,
    baseUrl: string)

  // ---------------------------------------------------------------------
  // SSDP responses
  // ---------------------------------------------------------------------

  /** A response line that is a LOCATION header, compared case-insensitively. */
  predicate IsLocationLine(line: string) {
    StartsWith(Lower(line), LocationHeader)
  }

  /** `s.split(":", 1)[1]`: the text after the first colon. */
  function AfterFirstColon(s: string): string
    requires ':' in s
  {
    if s[0] == ':' then s[1..] else AfterFirstColon(s[1..])
  }

  lemma {:induction false} AfterFirstColonAt(s: string, n: nat)
    requires n < |s| && s[n] == ':'
    requires forall k :: 0 <= k < n ==> s[k] != ':'
    ensures ':' in s && AfterFirstColon(s) == s[n + 1..]
  {
    if n > 0 {
      AfterFirstColonAt(s[1..], n - 1);
    }
  }

  /** In a LOCATION line the first colon is the one ending the header name. */
  lemma HeaderValueFollowsName(line: string)
    requires IsLocationLine(line)
    ensures ':' in line && AfterFirstColon(line) == line[|LocationHeader|..]
  {
    var low := Lower(line);
    assert low[..9] == LocationHeader;
    forall k | 0 <= k < 8 ensures line[k] != ':' {
      assert low[k] == LocationHeader[k] && LocationHeader[k] != ':';
    }
    assert low[8] == ':';
    AfterFirstColonAt(line, 8);
  }

  /** The i-th line is a LOCATION line and none before it is. */
  ghost predicate IsFirstLocationLine(lines: seq<string>, i: int) {
    && 0 <= i < |lines|
    && IsLocationLine(lines[i])
    && forall j :: 0 <= j < i ==> !IsLocationLine(lines[j])
  }

  /**
   * `r` is what `_parse_location` yields for these lines: None when no line
   * is a LOCATION header, otherwise the stripped value of the first one.
   */
  ghost predicate IsLocationResult(lines: seq<string>, r: Option<string>) {
    && (r.None? <==> forall i :: 0 <= i < |lines| ==> !IsLocationLine(lines[i]))
    && (r.Some? ==> exists i :: IsFirstLocationLine(lines, i) && r.value == Strip(lines[i][|LocationHeader|..]))
  }

  /** The early-return loop of `_parse_location` over the lines of one response. */
  function FirstLocation(lines: seq<string>): (r: Option<string>)
    ensures IsLocationResult(lines, r)
  {
    if lines == [] then None
    else if IsLocationLine(lines[0]) then
      HeaderValueFollowsName(lines[0]);
      assert IsFirstLocationLine(lines, 0);
      Some(Strip(AfterFirstColon(lines[0])))
    else
      var r := FirstLocation(lines[1..]);
      LocationResultOfTail(lines, r);
      r
  }

  /** A result for the lines after a non-LOCATION first line is the result for all of them. */
  lemma LocationResultOfTail(lines: seq<string>, r: Option<string>)
    requires lines != [] && !IsLocationLine(lines[0])
    requires IsLocationResult(lines[1..], r)
    ensures IsLocationResult(lines, r)
  {
    var tail := lines[1..];
    if r.Some? {
      var i :| IsFirstLocationLine(tail, i) && r.value == Strip(tail[i][|LocationHeader|..]);
      assert tail[i] == lines[i + 1];
      forall j | 0 <= j < i + 1 ensures !IsLocationLine(lines[j]) {
        if j > 0 { assert lines[j] == tail[j - 1]; }
      }
      assert IsFirstLocationLine(lines, i + 1);
    } else {
      forall j | 0 <= j < |lines| ensures !IsLocationLine(lines[j]) {
        if j > 0 { assert lines[j] == tail[j - 1]; }
      }
    }
  }

  /**
   * `_parse_location`: the stripped value of the first LOCATION header
   * among the CRLF-separated lines of an SSDP response, or None.
   */
  function ParseLocation(response: string): (r: Option<string>)
    ensures IsLocationResult(SplitCRLF(response), r)
  {
    FirstLocation(SplitCRLF(response))
  }

  /** The usable locations of a run of responses, in arrival order, repeats included. */
  ghost function Present(responses: seq<string>): seq<string> {
    if responses == [] then []
    else
      var prev := Present(responses[..|responses| - 1]);
      var loc := ParseLocation(responses[|responses| - 1]);
      if loc.Some? && loc.value != "" then prev + [loc.value] else prev
  }

  /** Usable locations are never empty. */
  lemma {:induction false} PresentNonEmpty(responses: seq<string>)
    ensures forall k :: 0 <= k < |Present(responses)| ==> Present(responses)[k] != ""
  {
    if responses != [] {
      PresentNonEmpty(responses[..|responses| - 1]);
    }
  }

  /** The position of the first occurrence of `y` in `xs`. */
  ghost function FirstPos(xs: seq<string>, y: string): (p: nat)
    requires y in xs
    ensures p < |xs| && xs[p] == y
  {
    if xs[0] == y then 0 else 1 + FirstPos(xs[1..], y)
  }

  /**
   * `ys` holds each element of `xs` exactly once, ordered by where it
   * first occurs in `xs`.
   */
  ghost predicate FirstArrivalOrder(xs: seq<string>, ys: seq<string>) {
    && (forall i, j :: 0 <= i < j < |ys| ==> ys[i] != ys[j])
    && (forall y :: y in ys <==> y in xs)
    && (forall i, j :: 0 <= i < j < |ys| ==> FirstPos(xs, ys[i]) < FirstPos(xs, ys[j]))
  }

  lemma {:induction false} FirstPosAppend(xs: seq<string>, x: string, y: string)
    requires y in xs
    ensures FirstPos(xs + [x], y) == FirstPos(xs, y)
  {
    if xs[0] != y {
      assert (xs + [x])[1..] == xs[1..] + [x];
      FirstPosAppend(xs[1..], x, y);
    }
  }

  lemma {:induction false} FirstPosOfNew(xs: seq<string>, x: string)
    requires x !in xs
    ensures FirstPos(xs + [x], x) == |xs|
  {
    if xs != [] {
      assert (xs + [x])[1..] == xs[1..] + [x];
      FirstPosOfNew(xs[1..], x);
    }
  }

  lemma ExtendWithSeen(xs: seq<string>, ys: seq<string>, x: string)
    requires FirstArrivalOrder(xs, ys) && x in ys
    ensures FirstArrivalOrder(xs + [x], ys)
  {
    forall y | y in ys ensures FirstPos(xs + [x], y) == FirstPos(xs, y) {
      FirstPosAppend(xs, x, y);
    }
  }

  lemma ExtendWithNew(xs: seq<string>, ys: seq<string>, x: string)
    requires FirstArrivalOrder(xs, ys) && x !in ys
    ensures FirstArrivalOrder(xs + [x], ys + [x])
  {
    var xs', ys' := xs + [x], ys + [x];
    forall y | y in ys ensures FirstPos(xs', y) == FirstPos(xs, y) < |xs| {
      FirstPosAppend(xs, x, y);
    }
    FirstPosOfNew(xs, x);
    forall i, j | 0 <= i < j < |ys'| ensures FirstPos(xs', ys'[i]) < FirstPos(xs', ys'[j]) {
      assert ys'[i] == ys[i];
      if j < |ys| { assert ys'[j] == ys[j]; }
    }
  }

  /** Each string of `xs` once, where it first occurs. */
  function Dedup(xs: seq<string>): (r: seq<string>)
    ensures |r| <= |xs|
    ensures forall k :: 0 <= k < |r| ==> r[k] in xs
  {
    if xs == [] then []
    else
      var prev := Dedup(xs[..|xs| - 1]);
      var x := xs[|xs| - 1];
      if x in prev then prev else prev + [x]
  }

  /** `Dedup` keeps exactly the members, once each, in first-arrival order. */
  lemma {:induction false} DedupIsFirstArrivalOrder(xs: seq<string>)
    ensures FirstArrivalOrder(xs, Dedup(xs))
  {
    if xs != [] {
      var front, x := xs[..|xs| - 1], xs[|xs| - 1];
      DedupIsFirstArrivalOrder(front);
      assert xs == front + [x];
      if x in Dedup(front) {
        ExtendWithSeen(front, Dedup(front), x);
      } else {
        ExtendWithNew(front, Dedup(front), x);
      }
    }
  }

  /** Deduplicated usable locations are never empty. */
  lemma DedupPresentNonEmpty(responses: seq<string>)
    ensures forall k :: 0 <= k < |Dedup(Present(responses))| ==> Dedup(Present(responses))[k] != ""
  {
    PresentNonEmpty(responses);
    DedupIsFirstArrivalOrder(Present(responses));
    assert forall k :: 0 <= k < |Dedup(Present(responses))| ==> Dedup(Present(responses))[k] in Present(responses);
  }

  /**
   * The collecting loop of `_ssdp_search`: the LOCATION values of the
   * responses, without empty values and without repeats, in first-arrival order.
   */
  method CollectLocations(responses: seq<string>) returns (locations: seq<string>)
    ensures locations == Dedup(Present(responses))
    ensures FirstArrivalOrder(Present(responses), locations)
    ensures forall k :: 0 <= k < |locations| ==> locations[k] != ""
  {
    locations := [];
    var i := 0;
    while i < |responses|
      invariant 0 <= i <= |responses|
      invariant locations == Dedup(Present(responses[..i]))
    {
      var loc := ParseLocation(responses[i]);
      assert responses[..i + 1][..i] == responses[..i];
      if loc.Some? && loc.value != "" && loc.value !in locations {
        locations := locations + [loc.value];
      }
      i := i + 1;
    }
    assert responses[..i] == responses;
    DedupIsFirstArrivalOrder(Present(responses));
    DedupPresentNonEmpty(responses);
  }

  // ---------------------------------------------------------------------
  // Device and service descriptions
  // ---------------------------------------------------------------------

  /** A `<service>` of the device's `<serviceList>`; a missing child element reads as "". */
  datatype ServiceElement = ServiceElement(serviceType: string, controlUrl: string, scpdUrl: string)

  /** The `<device>` element; `serviceList` is None when the element is absent. */
  datatype DeviceElement = DeviceElement(
    friendlyName: string,
    udn: string,
    serviceList: Option<seq<ServiceElement>>)

  /** A parsed device description; `device` is None when the root has no `<device>` child. */
  datatype DescriptionDocument = DescriptionDocument(device: Option<DeviceElement>)

  /** An `<action>` of a service description; a missing `<name>` reads as "". */
  datatype ActionElement = ActionElement(name: string)

  /** A parsed SCPD: its `<action>` elements in document order. */
  datatype ScpdDocument = ScpdDocument(actions: seq<ActionElement>)

  /**
   * What HTTP yields: each URL whose fetch answers 200 with well-formed XML,
   * mapped to the parsed document. Any other URL fails to fetch.
   */
  datatype Network = Network(
    descriptions: map<string, DescriptionDocument>,
    scpds: map<string, ScpdDocument>)

  /**
   * A control or SCPD URL made absolute: one that does not start with
   * "http" is appended to the base URL; an empty one stays empty.
   */
  function Resolve(baseUrl: string, url: string): (r: string)
    ensures |url| <= |r| && r[|r| - |url|..] == url
  {
    if url != "" && !StartsWith(url, "http") then baseUrl + url else url
  }

  /** Resolution keeps absolute URLs, yields absolute URLs from an http base, and is idempotent. */
  lemma ResolveMakesAbsolute(baseUrl: string, url: string)
    ensures StartsWith(url, "http") ==> Resolve(baseUrl, url) == url
    ensures (Resolve(baseUrl, url) == "") <==> (url == "")
    ensures StartsWith(baseUrl, "http") && url != "" ==> StartsWith(Resolve(baseUrl, url), "http")
    ensures StartsWith(baseUrl, "http") ==> Resolve(baseUrl, Resolve(baseUrl, url)) == Resolve(baseUrl, url)
  {
    if StartsWith(baseUrl, "http") && url != "" && !StartsWith(url, "http") {
      assert (baseUrl + url)[..4] == baseUrl[..4];
    }
  }

  /** The early-return search over the SCPD's actions. */
  function HasAction(actions: seq<ActionElement>, name: string): (b: bool)
    ensures b <==> exists i :: 0 <= i < |actions| && actions[i].name == name
  {
    if actions == [] then false
    else if actions[0].name == name then true
    else
      assert forall i :: 1 <= i < |actions| ==> actions[i] == actions[1..][i - 1];
      HasAction(actions[1..], name)
  }

  /**
   * `_check_set_next_support`: the AVTransport SCPD can be fetched and lists
   * an action named SetNextAVTransportURI. An empty SCPD path and a failed
   * fetch both mean "unsupported".
   */
  function SupportsSetNext(net: Network, baseUrl: string, scpdPath: string): (b: bool)
    ensures b <==> && scpdPath != ""
                   && Resolve(baseUrl, scpdPath) in net.scpds
                   && exists i :: 0 <= i < |net.scpds[Resolve(baseUrl, scpdPath)].actions|
                                  && net.scpds[Resolve(baseUrl, scpdPath)].actions[i].name == SetNextAction
  {
    if scpdPath == "" then false
    else
      var url := if StartsWith(scpdPath, "http") then scpdPath else baseUrl + scpdPath;
      url in net.scpds && HasAction(net.scpds[url].actions, SetNextAction)
  }

  /** The last service of the given type; later entries overwrite earlier ones in the source's loop. */
  function LastOfType(services: seq<ServiceElement>, serviceType: string): (r: Option<ServiceElement>)
    ensures r.Some? ==> r.value in services && r.value.serviceType == serviceType
  {
    if services == [] then None
    else if services[|services| - 1].serviceType == serviceType then Some(services[|services| - 1])
    else LastOfType(services[..|services| - 1], serviceType)
  }

  /** `services[i]` has the type and no later service has it. */
  ghost predicate IsLastOfType(services: seq<ServiceElement>, serviceType: string, i: int) {
    && 0 <= i < |services| && services[i].serviceType == serviceType
    && forall j :: i < j < |services| ==> services[j].serviceType != serviceType
  }

  /** `LastOfType` finds a service exactly when one has the type, and it is the last such. */
  lemma {:induction false} LastOfTypeIsLast(services: seq<ServiceElement>, serviceType: string)
    ensures LastOfType(services, serviceType).Some? <==>
              exists i :: 0 <= i < |services| && services[i].serviceType == serviceType
    ensures LastOfType(services, serviceType).Some? ==>
              exists i :: IsLastOfType(services, serviceType, i) && services[i] == LastOfType(services, serviceType).value
  {
    if services == [] {
    } else if services[|services| - 1].serviceType == serviceType {
      assert IsLastOfType(services, serviceType, |services| - 1);
    } else {
      var front := services[..|services| - 1];
      LastOfTypeIsLast(front, serviceType);
      if LastOfType(front, serviceType).Some? {
        var i :| IsLastOfType(front, serviceType, i) && front[i] == LastOfType(front, serviceType).value;
        assert IsLastOfType(services, serviceType, i);
      } else {
        forall i | 0 <= i < |services| ensures services[i].serviceType != serviceType {
          if i < |front| { assert front[i] == services[i]; }
        }
      }
    }
  }

  /** The control URL of an optional service, "" when there is none. */
  function ControlUrlOf(service: Option<ServiceElement>): string {
    if service.Some? then service.value.controlUrl else ""
  }

  /**
   * What `_fetch_device_description` builds for one location: None unless
   * the description can be fetched and parsed, has a `<device>` with a
   * non-empty UDN and a `<serviceList>`, and its last AVTransport service
   * has a non-empty control URL. Control URLs are resolved against the
   * location's base URL, and the gapless flag comes from that service's SCPD.
   * (None also stands for the ValueError `urlparse` can raise, which the
   * discovery pass drops like any other failed location.)
   */
  function Describe(net: Network, location: string): (r: Option<Renderer>)
    ensures r.Some? <==>
      && location in net.descriptions
      && net.descriptions[location].device.Some?
      && var device := net.descriptions[location].device.value;
      && device.udn != ""
      && BaseUrlFromLocation(location).Some?
      && device.serviceList.Some?
      && ControlUrlOf(LastOfType(device.serviceList.value, AvTransportType)) != ""
    ensures r.Some? ==>
      && r.value.location == location
      && r.value.udn != ""
      && r.value.avTransportControlUrl != ""
      && (StartsWith(r.value.baseUrl, "http") ==>
            && StartsWith(r.value.avTransportControlUrl, "http")
            && (r.value.renderingControlUrl == "" || StartsWith(r.value.renderingControlUrl, "http")))
  {
    if location !in net.descriptions then None
    else
      var root := net.descriptions[location];
      if root.device.None? then None
      else
        var device := root.device.value;
        if device.udn == "" then None
        else match BaseUrlFromLocation(location)
          case None => None
          case Some(baseUrl) =>
            if device.serviceList.None? then None
            else
              var av := LastOfType(device.serviceList.value, AvTransportType);
              var rc := LastOfType(device.serviceList.value, RenderingControlType);
              if ControlUrlOf(av) == "" then None
              else
                ResolveMakesAbsolute(baseUrl, ControlUrlOf(av));
                ResolveMakesAbsolute(baseUrl, ControlUrlOf(rc));
                Some(Renderer(
                  name := device.friendlyName,
                  udn := device.udn,
                  location := location,
                  supportsNext := SupportsSetNext(net, baseUrl, av.value.scpdUrl),
                  avTransportControlUrl := Resolve(baseUrl, ControlUrlOf(av)),
                  renderingControlUrl := Resolve(baseUrl, ControlUrlOf(rc)),
                  baseUrl := baseUrl))
  }

  /**
   * `_fetch_device_description`: walks the service list, overwriting the
   * AVTransport and RenderingControl control URLs (and the gapless flag) at
   * each service of those types, and builds the record.
   */
  method FetchDeviceDescription(net: Network, location: string) returns (r: Option<Renderer>)
    ensures r == Describe(net, location)
  {
    if location !in net.descriptions {
      return None;
    }
    var root := net.descriptions[location];
    if root.device.None? {
      return None;
    }
    var device := root.device.value;
    if device.udn == "" {
      return None;
    }
    var base := BaseUrlFromLocation(location);
    if base.None? {
      return None;
    }
    var baseUrl := base.value;
    var avControlUrl, rcControlUrl := "", "";
    var supportsNext := false;
    if device.serviceList.None? {
      return None;
    }
    var services := device.serviceList.value;
    var i := 0;
    while i < |services|
      invariant 0 <= i <= |services|
      invariant avControlUrl == ControlUrlOf(LastOfType(services[..i], AvTransportType))
      invariant rcControlUrl == ControlUrlOf(LastOfType(services[..i], RenderingControlType))
      invariant LastOfType(services[..i], AvTransportType).Some? ==>
        supportsNext == SupportsSetNext(net, baseUrl, LastOfType(services[..i], AvTransportType).value.scpdUrl)
    {
      var service := services[i];
      assert services[..i + 1][..i] == services[..i];
      if service.serviceType == AvTransportType {
        avControlUrl := service.controlUrl;
        supportsNext := SupportsSetNext(net, baseUrl, service.scpdUrl);
      } else if service.serviceType == RenderingControlType {
        rcControlUrl := service.controlUrl;
      }
      i := i + 1;
    }
    assert services[..i] == services;
    if avControlUrl == "" {
      return None;
    }
    if avControlUrl != "" && !StartsWith(avControlUrl, "http") {
      avControlUrl := baseUrl + avControlUrl;
    }
    if rcControlUrl != "" && !StartsWith(rcControlUrl, "http") {
      rcControlUrl := baseUrl + rcControlUrl;
    }
    r := Some(Renderer(device.friendlyName, device.udn, location, supportsNext, avControlUrl, rcControlUrl, baseUrl));
  }

  /** The successful records among the locations' results, in location order. */
  function Successes(net: Network, locations: seq<string>): (r: seq<Renderer>)
    ensures |r| <= |locations|
  {
    if locations == [] then []
    else
      var prev := Successes(net, locations[..|locations| - 1]);
      match Describe(net, locations[|locations| - 1])
      case Some(r) => prev + [r]
      case None => prev
  }

  /**
   * A pass keeps exactly the records that describing the locations yields:
   * each kept record is its own location's description, and no location
   * that can be described is dropped.
   */
  lemma {:induction false} SuccessesAreDescriptions(net: Network, locations: seq<string>)
    ensures |Successes(net, locations)| <= |locations|
    ensures forall k :: 0 <= k < |Successes(net, locations)| ==>
      var r := Successes(net, locations)[k];
      r.location in locations && Describe(net, r.location) == Some(r) && r.avTransportControlUrl != ""
    ensures forall l :: l in locations && Describe(net, l).Some? ==> Describe(net, l).value in Successes(net, locations)
  {
    if locations != [] {
      var front := locations[..|locations| - 1];
      var last := locations[|locations| - 1];
      SuccessesAreDescriptions(net, front);
      assert forall l :: l in locations ==> l in front || l == last;
      assert forall l :: l in front ==> l in locations;
    }
  }

  // ---------------------------------------------------------------------
  // The discovery cache and renderer lookup
  // ---------------------------------------------------------------------

  /**
   * What one discovery call reads from outside: the clock when it starts,
   * the clock when the pass is done, the SSDP responses received before the
   * search deadline, and the network.
   */
  datatype Environment = Environment(now: real, finishedAt: real, responses: seq<string>, network: Network)

  /** The cache answers without rediscovery: not forced, non-empty and younger than the TTL. */
  predicate IsFresh(force: bool, cached: seq<Renderer>, cacheTime: real, now: real) {
    !force && cached != [] && now - cacheTime < CacheTtl
  }

  /** An empty cache is never fresh, and a forced call never uses the cache. */
  lemma EmptyOrForcedIsStale(force: bool, cached: seq<Renderer>, cacheTime: real, now: real)
    ensures cached == [] ==> !IsFresh(force, cached, cacheTime, now)
    ensures force ==> !IsFresh(force, cached, cacheTime, now)
    ensures !force && cached != [] ==> (IsFresh(force, cached, cacheTime, now) <==> now < cacheTime + CacheTtl)
  {
  }

  /**
   * The outcome of a full discovery pass: the records for the deduplicated
   * locations of the SSDP responses.
   */
  ghost function PassResult(env: Environment): seq<Renderer> {
    Successes(env.network, Dedup(Present(env.responses)))
  }

  /**
   * What a discovery call did to the cache: a fresh cache is left exactly
   * as it was; otherwise the cache holds the outcome of a new pass, stamped
   * with the time the pass ended.
   */
  twostate predicate Refreshed(cache: DiscoveryCache, force: bool, env: Environment)
    reads cache
  {
    if IsFresh(force, old(cache.renderers), old(cache.cacheTime), env.now) then
      cache.renderers == old(cache.renderers) && cache.cacheTime == old(cache.cacheTime)
    else
      cache.renderers == PassResult(env) && cache.cacheTime == env.finishedAt
  }

  /**
   * What `find_renderer` returns when called on `cache` now: the name match
   * over the list a non-forced discovery leaves behind.
   */
  ghost function LookupOutcome(cache: DiscoveryCache, name: string, env: Environment): Option<Renderer>
    reads cache
  {
    var listed := if IsFresh(false, cache.renderers, cache.cacheTime, env.now) then cache.renderers else PassResult(env);
    MatchRenderer(listed, name)
  }

  /** The module-level `_renderer_cache` and `_cache_time`. */
  class DiscoveryCache {
    var renderers: seq<Renderer>
    var cacheTime: real

    constructor ()
      ensures renderers == [] && cacheTime == 0.0
    {
      renderers := [];
      cacheTime := 0.0;
    }

    /**
     * `discover_renderers`: the cached list when it is fresh; otherwise a
     * new pass whose successful records replace the cache wholesale.
     */
    method Discover(force: bool, env: Environment) returns (result: seq<Renderer>)
      modifies this`renderers, this`cacheTime
      ensures result == renderers
      ensures Refreshed(this, force, env)
    {
      if !force && renderers != [] && env.now - cacheTime < CacheTtl {
        return renderers;
      }
      var locations := CollectLocations(env.responses);
      var found := FetchAll(env.network, locations);
      renderers := found;
      cacheTime := env.finishedAt;
      result := renderers;
    }

    /** `find_renderer`: a non-forced discovery, then the name match. */
    method FindRenderer(name: string, env: Environment) returns (r: Option<Renderer>)
      modifies this`renderers, this`cacheTime
      ensures r == MatchRenderer(renderers, name) == old(LookupOutcome(this, name, env))
      ensures Refreshed(this, false, env)
    {
      var rs := Discover(false, env);
      r := MatchRenderer(rs, name);
    }
  }

  /** The loop of `discover` over the collected locations, keeping each description that succeeds. */
  method FetchAll(net: Network, locations: seq<string>) returns (found: seq<Renderer>)
    ensures found == Successes(net, locations)
  {
    found := [];
    var i := 0;
    while i < |locations|
      invariant 0 <= i <= |locations|
      invariant found == Successes(net, locations[..i])
    {
      var r := FetchDeviceDescription(net, locations[i]);
      assert locations[..i + 1][..i] == locations[..i];
      if r.Some? {
        found := found + [r.value];
      }
      i := i + 1;
    }
    assert locations[..i] == locations;
  }

  /** The first loop of `find_renderer`: the first renderer whose lower-cased name equals `q`. */
  function FirstExactMatch(rs: seq<Renderer>, q: string): (r: Option<Renderer>)
    ensures r.None? <==> forall i :: 0 <= i < |rs| ==> Lower(rs[i].name) != q
    ensures r.Some? ==> exists i :: && 0 <= i < |rs| && rs[i] == r.value && Lower(rs[i].name) == q
                                   && forall j :: 0 <= j < i ==> Lower(rs[j].name) != q
  {
    if rs == [] then None
    else if Lower(rs[0].name) == q then Some(rs[0])
    else
      assert forall i :: 1 <= i < |rs| ==> rs[i] == rs[1..][i - 1];
      FirstExactMatch(rs[1..], q)
  }

  /** The second loop: the first renderer whose lower-cased name contains `q`. */
  function FirstSubstringMatch(rs: seq<Renderer>, q: string): (r: Option<Renderer>)
    ensures r.None? <==> forall i :: 0 <= i < |rs| ==> !Contains(Lower(rs[i].name), q)
    ensures r.Some? ==> exists i :: && 0 <= i < |rs| && rs[i] == r.value && Contains(Lower(rs[i].name), q)
                                   && forall j :: 0 <= j < i ==> !Contains(Lower(rs[j].name), q)
  {
    if rs == [] then None
    else if Contains(Lower(rs[0].name), q) then Some(rs[0])
    else
      assert forall i :: 1 <= i < |rs| ==> rs[i] == rs[1..][i - 1];
      FirstSubstringMatch(rs[1..], q)
  }

  /**
   * The renderer at index i is the one lookup picks for the lower-cased
   * query q: the first exact match, or, when there is no exact match at
   * all, the first substring match.
   */
  ghost predicate IsPick(rs: seq<Renderer>, i: int, q: string) {
    && 0 <= i < |rs|
    && ((Lower(rs[i].name) == q && forall j :: 0 <= j < i ==> Lower(rs[j].name) != q)
        || (&& (forall j :: 0 <= j < |rs| ==> Lower(rs[j].name) != q)
            && Contains(Lower(rs[i].name), q)
            && forall j :: 0 <= j < i ==> !Contains(Lower(rs[j].name), q)))
  }

  /**
   * The name match of `find_renderer`, case-insensitive: the first exact
   * match, or, when there is none, the first substring match.
   */
  function MatchRenderer(rs: seq<Renderer>, name: string): Option<Renderer> {
    var q := Lower(name);
    var exact := FirstExactMatch(rs, q);
    if exact.Some? then exact else FirstSubstringMatch(rs, q)
  }

  /**
   * What `MatchRenderer` picks: None exactly when no lower-cased name
   * contains the lower-cased query, and otherwise the renderer at a
   * position `IsPick` describes.
   */
  lemma MatchRendererPicks(rs: seq<Renderer>, name: string)
    ensures MatchRenderer(rs, name).None? <==> forall i :: 0 <= i < |rs| ==> !Contains(Lower(rs[i].name), Lower(name))
    ensures MatchRenderer(rs, name).Some? ==> exists i :: IsPick(rs, i, Lower(name)) && rs[i] == MatchRenderer(rs, name).value
  {
    var q := Lower(name);
    if FirstExactMatch(rs, q).Some? {
      ContainsSelf(q);
      assert exists i :: 0 <= i < |rs| && Lower(rs[i].name) == q && Contains(Lower(rs[i].name), q);
    }
  }

  /** If some name equals the query up to case, lookup returns a renderer with that name. */
  lemma ExactMatchWins(rs: seq<Renderer>, name: string, k: int)
    requires 0 <= k < |rs| && Lower(rs[k].name) == Lower(name)
    ensures MatchRenderer(rs, name).Some?
    ensures Lower(MatchRenderer(rs, name).value.name) == Lower(name)
  {
    var q := Lower(name);
    assert Lower(rs[k].name) == q;
    assert FirstExactMatch(rs, q).Some?;
  }
}
