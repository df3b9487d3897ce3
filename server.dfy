/**
 * The MCP tool layer: the checks and result mapping each tool performs
 * around discovery and the queue registry. A tool's reply is a
 * `ToolResult`; an `Error` stands for the `{"error": ...}` dictionary, with
 * the kind of message instead of its text.
 */
module Server {
  import opened Wrappers
  import opened Discovery
  import opened QueueManager

  /** A decoded JSON value, as `json.loads` yields it. */
  datatype Json =
    | JNull
    | JBool(b: bool)
    | JNumber(n: real)
    | JString(s: string)
    | JArray(items: seq<Json>)
    | JObject(members: map<string, Json>)

  /** Python truthiness of a decoded JSON value. */
  predicate Truthy(j: Json) {
    match j
    case JNull => false
    case JBool(b) => b
    case JNumber(n) => n != 0.0
    case JString(s) => s != ""
    case JArray(items) => items != []
    case JObject(members) => members != map[]
  }

  /** A track-list entry is a JSON object whose `url` member is present and truthy. */
  predicate IsTrackEntry(j: Json) {
    j.JObject? && "url" in j.members && Truthy(j.members["url"])
  }

  /** A string member of an entry, "" when it is absent or not a string. */
  function FieldText(j: Json, key: string): string {
    if j.JObject? && key in j.members && j.members[key].JString? then j.members[key].s else ""
  }

  /** The `Track` built from one entry. */
  function TrackOf(j: Json): Track {
    Track(FieldText(j, "url"), FieldText(j, "title"), FieldText(j, "artist"), FieldText(j, "album"), FieldText(j, "art_url"))
  }

  /** Why a tool call failed. */
  datatype ToolError =
    | RendererNotFound(name: string)
    | InvalidTracksJson
    | TracksNotNonEmptyArray
    | TrackMissingUrl(index: nat)
    | TrackTypeError(index: nat)  // the `Track` constructor raised TypeError on this entry
    | NoActivePlayback(renderer: string)
    | AlreadyAtLastTrack
    | AlreadyAtFirstTrack
    | PlaybackFailed(fault: Fault)
    | VolumeFailed(fault: Fault)
    | Unhandled(fault: Fault)    // an exception the tool does not catch

  /** One entry of the `list_renderers` reply. */
  datatype RendererEntry = RendererEntry(name: string, supportsQueue: bool)

  /** The dictionary a tool returns. */
  datatype ToolResult =
    | Error(error: ToolError)
    | Renderers(total: nat, renderers: seq<RendererEntry>)
    | PlaybackStarted(renderer: string, totalTracks: nat, supportsGapless: bool,
                      track: int, title: string, artist: string, album: string)
    | StoppedPlayback(renderer: string)
    | Skipped(renderer: string, track: int, totalTracks: nat, title: string, artist: string)
    | Status(status: SessionStatus)
    | Idle(renderer: string)
    | VolumeSet(renderer: string, volume: int)

  /** The volume clamp of `set_volume`: `max(0, min(100, v))`. */
  function ClampVolume(v: int): (c: int)
    ensures 0 <= c <= 100
    ensures 0 <= v <= 100 ==> c == v
    ensures v < 0 ==> c == 0
    ensures v > 100 ==> c == 100
  {
    if v < 0 then 0 else if v > 100 then 100 else v
  }

  /** The `list_renderers` projection: one entry per renderer, in order. */
  function Listing(rs: seq<Renderer>): (entries: seq<RendererEntry>)
    ensures |entries| == |rs|
    ensures forall i :: 0 <= i < |rs| ==> entries[i].name == rs[i].name && entries[i].supportsQueue == rs[i].supportsNext
  {
    if rs == [] then []
    else
      var rest := Listing(rs[1..]);
      [RendererEntry(rs[0].name, rs[0].supportsNext)] + rest
  }

  /** The index of the first entry that is not a track entry, if any. */
  function FirstMissingUrl(items: seq<Json>): (r: Option<nat>)
    ensures r.None? <==> forall k :: 0 <= k < |items| ==> IsTrackEntry(items[k])
    ensures r.Some? ==> r.value < |items| && !IsTrackEntry(items[r.value])
                        && forall k :: 0 <= k < r.value ==> IsTrackEntry(items[k])
  {
    if items == [] then None
    else if !IsTrackEntry(items[0]) then Some(0)
    else
      assert forall k :: 1 <= k < |items| ==> items[k] == items[1..][k - 1];
      match FirstMissingUrl(items[1..])
      case None => None
      case Some(i) => Some(i + 1)
  }

  /**
   * The outcome of the track-list checks of `play_tracks` on the decoded
   * argument (None when it is not valid JSON).
   */
  function TrackList(raw: Option<Json>): (r: Result<seq<Track>, ToolError>)
    ensures raw.None? ==> r == Failure(InvalidTracksJson)
    ensures raw.Some? && !(raw.value.JArray? && raw.value.items != []) ==> r == Failure(TracksNotNonEmptyArray)
    ensures raw.Some? && raw.value.JArray? && raw.value.items != [] ==>
      var items := raw.value.items;
      && (r.Success? <==> forall k :: 0 <= k < |items| ==> IsTrackEntry(items[k]))
      && (r.Failure? ==> exists i: nat :: && r.error == TrackMissingUrl(i) && i < |items|
                                     && !IsTrackEntry(items[i])
                                     && forall k :: 0 <= k < i ==> IsTrackEntry(items[k]))
      && (r.Success? ==> |r.value| == |items| && forall k :: 0 <= k < |items| ==> r.value[k] == TrackOf(items[k]))
  {
    if raw.None? then Failure(InvalidTracksJson)
    else if !(raw.value.JArray? && raw.value.items != []) then Failure(TracksNotNonEmptyArray)
    else
      var items := raw.value.items;
      match FirstMissingUrl(items)
      case Some(i) => Failure(TrackMissingUrl(i))
      case None => Success(seq(|items|, k requires 0 <= k < |items| => TrackOf(items[k])))
  }

  /**
   * The track-list checks as the source writes them: each entry with a url
   * is passed to `Track` together with a `media_type` keyword that `Track`
   * does not declare, so the first entry that passes the url check raises
   * TypeError, which the tool does not catch.
   */
  function TrackListAsWritten(raw: Option<Json>): (r: Result<seq<Track>, ToolError>)
    ensures r.Failure?
    ensures !(raw.Some? && raw.value.JArray? && raw.value.items != [] && IsTrackEntry(raw.value.items[0])) ==>
              r == TrackList(raw)
    ensures raw.Some? && raw.value.JArray? && raw.value.items != [] && IsTrackEntry(raw.value.items[0]) ==>
              r == Failure(TrackTypeError(0))
    ensures TrackList(raw).Success? ==> r == Failure(TrackTypeError(0))
  {
    if raw.None? then Failure(InvalidTracksJson)
    else if !(raw.value.JArray? && raw.value.items != []) then Failure(TracksNotNonEmptyArray)
    else if !IsTrackEntry(raw.value.items[0]) then Failure(TrackMissingUrl(0))
    else Failure(TrackTypeError(0))
  }

  /** A one-track list that the checks accept never reaches playback as written. */
  lemma MediaTypeBreaksValidation()
    ensures var raw := Some(JArray([JObject(map["url" := JString("http://host/a.flac")])]));
      && TrackList(raw) == Success([Track("http://host/a.flac", "", "", "", "")])
      && TrackListAsWritten(raw) == Failure(TrackTypeError(0))
  {
    var entry := JObject(map["url" := JString("http://host/a.flac")]);
    var raw := Some(JArray([entry]));
    assert IsTrackEntry(entry);
    assert FirstMissingUrl([entry]) == None;
    assert TrackOf(entry) == Track("http://host/a.flac", "", "", "", "");
    var items := [entry];
    assert seq(|items|, k requires 0 <= k < |items| => TrackOf(items[k])) == [TrackOf(entry)];
  }

  /**
   * The validation loop of `play_tracks`: it appends one track per entry
   * and returns at the first entry without a url.
   */
  method ValidateTracks(raw: Option<Json>) returns (r: Result<seq<Track>, ToolError>)
    ensures r == TrackList(raw)
  {
    if raw.None? {
      return Failure(InvalidTracksJson);
    }
    if !(raw.value.JArray? && raw.value.items != []) {
      return Failure(TracksNotNonEmptyArray);
    }
    var items := raw.value.items;
    var tracks: seq<Track> := [];
    var i := 0;
    while i < |items|
      invariant 0 <= i <= |items|
      invariant |tracks| == i
      invariant forall k :: 0 <= k < i ==> IsTrackEntry(items[k]) && tracks[k] == TrackOf(items[k])
    {
      if !IsTrackEntry(items[i]) {
        assert FirstMissingUrl(items) == Some(i);
        return Failure(TrackMissingUrl(i));
      }
      tracks := tracks + [TrackOf(items[i])];
      i := i + 1;
    }
    assert tracks == seq(|items|, k requires 0 <= k < |items| => TrackOf(items[k]));
    r := Success(tracks);
  }

  /** `list_renderers`: a discovery call, projected. */
  method ListRenderers(cache: DiscoveryCache, env: Environment, forceRefresh: bool) returns (result: ToolResult)
    modifies cache
    ensures Refreshed(cache, forceRefresh, env)
    ensures result == Renderers(|cache.renderers|, Listing(cache.renderers))
  {
    var rs := cache.Discover(forceRefresh, env);
    result := Renderers(|rs|, Listing(rs));
  }

  // ---------------------------------------------------------------------
  // Frames of the tools: a tool touches only the session it looks up.
  // Each tool names that session in its `modifies` clause through
  // `LookupOutcome`, the renderer its lookup is going to return.
  // ---------------------------------------------------------------------

  /** The session a tool call for `found` may change: the one filed under its UDN, if any. */
  ghost function TouchedSession(registry: Registry, found: Option<Renderer>): set<QueueSession>
    reads registry
  {
    if found.Some? then registry.SessionOf(found.value.udn) else {}
  }

  /** The device handle a tool call for `found` may command: that session's, if any. */
  ghost function TouchedPort(registry: Registry, found: Option<Renderer>): set<AvPort>
    reads registry, registry.sessions.Values
  {
    if found.Some? then registry.PortOf(found.value.udn) else {}
  }

  // ---------------------------------------------------------------------
  // play_tracks
  // ---------------------------------------------------------------------

  /**
   * `play_tracks`: look the renderer up, check the track list, then replace
   * any session on that renderer with a new one and start it. `devices` maps
   * each location whose device can be created to the commands it rejects.
   * No handle but the one of the renderer's old session is touched.
   */
  method PlayTracks(cache: DiscoveryCache, registry: Registry, env: Environment, devices: map<string, set<Op>>,
                    rendererName: string, raw: Option<Json>) returns (result: ToolResult, ghost started: Step<()>)
    requires registry.Valid()
    modifies cache, registry, TouchedPort(registry, LookupOutcome(cache, rendererName, env))
    ensures registry.Valid()
    ensures Refreshed(cache, false, env)
    ensures var found := MatchRenderer(cache.renderers, rendererName);
      && (found.None? ==> result == Error(RendererNotFound(rendererName)) && unchanged(registry))
      && (found.Some? && TrackList(raw).Failure? ==>
            result == Error(TrackList(raw).error) && unchanged(registry) && unchanged(old(TouchedPort(registry, found))))
      && (found.Some? && TrackList(raw).Success? ==>
            && Replaced(registry, found.value, TrackList(raw).value, devices, result, started, old(registry.sessions))
            && fresh(registry.sessions[found.value.udn])
            && (registry.sessions[found.value.udn].dmr != null ==> fresh(registry.sessions[found.value.udn].dmr))
            && (found.value.udn in old(registry.sessions) ==>
                  var port := old(registry.sessions[found.value.udn].dmr);
                  SentOf(port) == old(SentOf(port)) + (if port == null then [] else [Command.Stop, Unsubscribe])))
  {
    var renderer := cache.FindRenderer(rendererName, env);
    result, started := PlayOn(registry, renderer, rendererName, raw, devices);
  }

  /**
   * The reply to a started playback: a playback error when the device
   * cannot be created or one of the start commands raises; otherwise the
   * first track of the queue.
   */
  predicate Started(renderer: Renderer, tracks: seq<Track>, devices: map<string, set<Op>>, result: ToolResult)
    requires tracks != []
  {
    if renderer.location !in devices then result == Error(PlaybackFailed(DeviceUnavailable))
    else
      var run := Execute(StartPlan(tracks), devices[renderer.location]);
      if run.failure.Some? then result == Error(PlaybackFailed(Rejected(run.failure.value)))
      else result == PlaybackStarted(renderer.name, |tracks|, renderer.supportsNext, 1,
                                     tracks[0].title, tracks[0].artist, tracks[0].album)
  }

  /** A playback start is reported as failed exactly when the device is missing or a start command raises. */
  lemma StartedFailsExactly(renderer: Renderer, tracks: seq<Track>, devices: map<string, set<Op>>, result: ToolResult)
    requires tracks != [] && Started(renderer, tracks, devices, result)
    ensures result.Error? <==>
      renderer.location !in devices || Execute(StartPlan(tracks), devices[renderer.location]).failure.Some?
    ensures result.Error? ==> result.error.PlaybackFailed?
  {
  }

  /**
   * The registry after a successful `play_tracks` call, given the sessions
   * `before` it: a new session on the tracks, at its first one, stands
   * under the renderer's UDN in place of any older one, with the server up.
   * It has no handle when the device cannot be created, and otherwise a
   * handle that rejects what the device rejects and received the start
   * commands; the reply follows the start.
   */
  ghost predicate Replaced(registry: Registry, renderer: Renderer, tracks: seq<Track>, devices: map<string, set<Op>>,
                           result: ToolResult, started: Step<()>, before: map<string, QueueSession>)
    reads registry, registry.sessions.Values, registry.Ports()
  {
    && tracks != []
    && renderer.udn in registry.sessions
    && var session := registry.sessions[renderer.udn];
    && registry.sessions == before[renderer.udn := session]
    && registry.notifyServerRunning
    && session.renderer == renderer && session.tracks == tracks && session.currentIndex == 0
    && (renderer.location !in devices ==> session.dmr == null && session.preloadedIndex.None?)
    && (renderer.location in devices ==>
          && session.dmr != null
          && session.dmr.rejects == devices[renderer.location]
          && session.StartedWith(started))
    && Started(renderer, tracks, devices, result)
  }

  /**
   * The part of `play_tracks` after the lookup, which found `found`: the
   * checks, the registry call and its reply.
   */
  method PlayOn(registry: Registry, found: Option<Renderer>, rendererName: string, raw: Option<Json>,
                devices: map<string, set<Op>>) returns (result: ToolResult, ghost started: Step<()>)
    requires registry.Valid()
    modifies registry, TouchedPort(registry, found)
    ensures registry.Valid()
    ensures found.None? ==> result == Error(RendererNotFound(rendererName)) && unchanged(registry)
    ensures found.Some? && TrackList(raw).Failure? ==>
      result == Error(TrackList(raw).error) && unchanged(registry) && unchanged(registry.Ports())
    ensures found.Some? && TrackList(raw).Success? ==>
      && Replaced(registry, found.value, TrackList(raw).value, devices, result, started, old(registry.sessions))
      && fresh(registry.sessions[found.value.udn])
      && (registry.sessions[found.value.udn].dmr != null ==> fresh(registry.sessions[found.value.udn].dmr))
      && (found.value.udn in old(registry.sessions) ==>
            var port := old(registry.sessions[found.value.udn].dmr);
            SentOf(port) == old(SentOf(port)) + (if port == null then [] else [Command.Stop, Unsubscribe]))
  {
    if found.None? {
      return Error(RendererNotFound(rendererName)), Raised(DeviceUnavailable);
    }
    var renderer := found.value;
    var checked := ValidateTracks(raw);
    if checked.Failure? {
      return Error(checked.error), Raised(NoTracks);
    }
    var tracks := checked.value;
    var device := if renderer.location in devices then Some(devices[renderer.location]) else None;
    var session, outcome := registry.PlayTracks(renderer, tracks, device);
    started := outcome;
    if outcome.Raised? {
      return Error(PlaybackFailed(outcome.fault)), started;
    }
    result := PlaybackStarted(renderer.name, |tracks|, renderer.supportsNext, 1,
                              tracks[0].title, tracks[0].artist, tracks[0].album);
  }

  // ---------------------------------------------------------------------
  // stop
  // ---------------------------------------------------------------------

  /**
   * `stop`: an error without a renderer or a session; otherwise the session
   * stops and leaves the registry. No other session's handle is touched.
   */
  method Stop(cache: DiscoveryCache, registry: Registry, env: Environment, rendererName: string) returns (result: ToolResult)
    requires registry.Valid()
    modifies cache, registry, TouchedPort(registry, LookupOutcome(cache, rendererName, env))
    ensures registry.Valid()
    ensures Refreshed(cache, false, env)
    ensures var found := MatchRenderer(cache.renderers, rendererName);
      && (found.None? ==> result == Error(RendererNotFound(rendererName)) && unchanged(registry))
      && (found.Some? && found.value.udn !in old(registry.sessions) ==>
            result == Error(NoActivePlayback(found.value.name)) && unchanged(registry))
      && (found.Some? && found.value.udn in old(registry.sessions) ==>
            var port := old(registry.sessions[found.value.udn].dmr);
            && result == StoppedPlayback(found.value.name)
            && SentOf(port) == old(SentOf(port)) + (if port == null then [] else [Command.Stop, Unsubscribe])
            && registry.sessions == old(registry.sessions) - {found.value.udn}
            && (registry.notifyServerRunning <==> registry.sessions != map[]))
  {
    var renderer := cache.FindRenderer(rendererName, env);
    result := StopOn(registry, renderer, rendererName);
  }

  /** The part of `stop` after the lookup, which found `found`. */
  method StopOn(registry: Registry, found: Option<Renderer>, rendererName: string) returns (result: ToolResult)
    requires registry.Valid()
    modifies registry, TouchedPort(registry, found)
    ensures registry.Valid()
    ensures found.None? ==> result == Error(RendererNotFound(rendererName)) && unchanged(registry)
    ensures found.Some? && found.value.udn !in old(registry.sessions) ==>
      result == Error(NoActivePlayback(found.value.name)) && unchanged(registry)
    ensures found.Some? && found.value.udn in old(registry.sessions) ==>
      var port := old(registry.sessions[found.value.udn].dmr);
      && result == StoppedPlayback(found.value.name)
      && SentOf(port) == old(SentOf(port)) + (if port == null then [] else [Command.Stop, Unsubscribe])
      && registry.sessions == old(registry.sessions) - {found.value.udn}
      && (registry.notifyServerRunning <==> registry.sessions != map[])
  {
    if found.None? {
      return Error(RendererNotFound(rendererName));
    }
    var session := registry.GetSession(found.value.udn);
    if session.None? {
      return Error(NoActivePlayback(found.value.name));
    }
    session.value.Stop();
    result := StoppedPlayback(found.value.name);
  }

  // ---------------------------------------------------------------------
  // next_track and previous_track
  // ---------------------------------------------------------------------

  /** A skip reply names the session's new current track, 1-based, and the queue length. */
  ghost predicate IsSkipReply(session: QueueSession, renderer: Renderer, result: ToolResult)
    reads session
  {
    && session.currentIndex < |session.tracks|
    && result == Skipped(renderer.name, session.currentIndex + 1, |session.tracks|,
                         session.tracks[session.currentIndex].title,
                         session.tracks[session.currentIndex].artist)
  }

  /**
   * The reply to a skip that moved the session to a new track: the fault
   * escapes the tool when there is no handle or a switch command raises;
   * otherwise the reply names the new track.
   */
  ghost predicate SkipOutcome(session: QueueSession, renderer: Renderer, result: ToolResult)
    reads session, session.dmr
  {
    && session.currentIndex < |session.tracks|
    && if session.dmr == null then result == Error(Unhandled(NoDevice))
       else
         var run := Execute(SwitchPlan(session.tracks[session.currentIndex]), session.dmr.rejects);
         if run.failure.Some? then result == Error(Unhandled(Rejected(run.failure.value)))
         else IsSkipReply(session, renderer, result)
  }

  /** The mutable part of a session, together with the commands its handle had received. */
  datatype SessionState = SessionState(currentIndex: nat, preloadedIndex: Option<nat>, dmr: AvPort?, sent: seq<Command>)

  /** The state of `session` now. */
  ghost function StateOf(session: QueueSession): SessionState
    reads session, session.dmr
  {
    SessionState(session.currentIndex, session.preloadedIndex, session.dmr, SentOf(session.dmr))
  }

  /** The state of the session a tool call for `found` acts on, or a placeholder when there is none. */
  ghost function StateAt(registry: Registry, found: Option<Renderer>): SessionState
    reads registry, registry.sessions.Values, registry.Ports()
  {
    if found.Some? && found.value.udn in registry.sessions then StateOf(registry.sessions[found.value.udn])
    else SessionState(0, None, null, [])
  }

  /**
   * What `next_track` did to the renderer's session, given its state
   * `before`: at the last track the reply is "already at last track" and
   * nothing changed; otherwise the index moved forward one, the renderer was
   * switched to that track as `SwitchedFrom` says, and the reply follows
   * the switch.
   */
  ghost predicate SkippedForward(session: QueueSession, renderer: Renderer, result: ToolResult, step: Step<Option<Track>>,
                                 before: SessionState)
    reads session, session.dmr
  {
    && session.dmr == before.dmr
    && (result == Error(AlreadyAtLastTrack) <==> before.currentIndex + 1 >= |session.tracks|)
    && (before.currentIndex + 1 >= |session.tracks| ==>
          && session.currentIndex == before.currentIndex
          && session.preloadedIndex == before.preloadedIndex
          && SentOf(session.dmr) == before.sent)
    && (before.currentIndex + 1 < |session.tracks| ==>
          && session.currentIndex == before.currentIndex + 1 < |session.tracks|
          && session.SwitchedFrom(step, before.sent)
          && SkipOutcome(session, renderer, result))
    && (result.Skipped? ==> session.currentIndex == before.currentIndex + 1 && IsSkipReply(session, renderer, result))
  }

  /** The same for `previous_track`, moving back one from any track but the first. */
  ghost predicate SkippedBack(session: QueueSession, renderer: Renderer, result: ToolResult, step: Step<Option<Track>>,
                              before: SessionState)
    reads session, session.dmr
  {
    && session.dmr == before.dmr
    && (result == Error(AlreadyAtFirstTrack) <==> before.currentIndex == 0)
    && (before.currentIndex == 0 ==>
          && session.currentIndex == before.currentIndex
          && session.preloadedIndex == before.preloadedIndex
          && SentOf(session.dmr) == before.sent)
    && (before.currentIndex > 0 ==>
          && session.currentIndex + 1 == before.currentIndex
          && session.currentIndex < |session.tracks|
          && session.SwitchedFrom(step, before.sent)
          && SkipOutcome(session, renderer, result))
    && (result.Skipped? ==> session.currentIndex + 1 == before.currentIndex && IsSkipReply(session, renderer, result))
  }

  /**
   * `next_track`: an error without a renderer or a session; otherwise the
   * skip as `SkippedForward` describes it, `before` being the session's
   * state when the tool was called. Only that session and its handle change.
   */
  method NextTrack(cache: DiscoveryCache, registry: Registry, env: Environment, rendererName: string)
    returns (result: ToolResult, ghost step: Step<Option<Track>>, ghost before: SessionState)
    requires registry.Valid()
    modifies cache, TouchedSession(registry, LookupOutcome(cache, rendererName, env)),
             TouchedPort(registry, LookupOutcome(cache, rendererName, env))
    ensures registry.Valid()
    ensures Refreshed(cache, false, env)
    ensures var found := MatchRenderer(cache.renderers, rendererName);
      && (found.None? ==> result == Error(RendererNotFound(rendererName)))
      && (found.Some? && found.value.udn !in registry.sessions ==> result == Error(NoActivePlayback(found.value.name)))
      && (found.Some? && found.value.udn in registry.sessions ==>
            && before == old(StateAt(registry, found))
            && SkippedForward(registry.sessions[found.value.udn], found.value, result, step, before))
  {
    var renderer := cache.FindRenderer(rendererName, env);
    result, step, before := NextOn(registry, renderer, rendererName);
  }

  /**
   * The part of `next_track` after the lookup, which found `found`: an
   * error without a session; otherwise the session's `next`, a raised skip
   * escaping the tool.
   */
  method NextOn(registry: Registry, found: Option<Renderer>, rendererName: string)
    returns (result: ToolResult, ghost step: Step<Option<Track>>, ghost before: SessionState)
    requires registry.Valid()
    modifies TouchedSession(registry, found), TouchedPort(registry, found)
    ensures registry.Valid()
    ensures found.None? ==> result == Error(RendererNotFound(rendererName))
    ensures found.Some? && found.value.udn !in registry.sessions ==> result == Error(NoActivePlayback(found.value.name))
    ensures found.Some? && found.value.udn in registry.sessions ==>
      && before == old(StateAt(registry, found))
      && SkippedForward(registry.sessions[found.value.udn], found.value, result, step, before)
  {
    if found.None? {
      return Error(RendererNotFound(rendererName)), Ok(None), SessionState(0, None, null, []);
    }
    var renderer := found.value;
    var session := registry.GetSession(renderer.udn);
    if session.None? {
      return Error(NoActivePlayback(renderer.name)), Ok(None), SessionState(0, None, null, []);
    }
    var s := session.value;
    before := StateOf(s);
    var moved := s.Next();
    step := moved;
    registry.OneSessionChanged(s);
    match moved
    case Raised(fault) =>
      result := Error(Unhandled(fault));
    case Ok(None) =>
      result := Error(AlreadyAtLastTrack);
    case Ok(Some(track)) =>
      result := Skipped(renderer.name, s.currentIndex + 1, |s.tracks|, track.title, track.artist);
  }

  /**
   * `previous_track`: an error without a renderer or a session; otherwise
   * the skip as `SkippedBack` describes it, `before` being the session's
   * state when the tool was called. Only that session and its handle change.
   */
  method PreviousTrack(cache: DiscoveryCache, registry: Registry, env: Environment, rendererName: string)
    returns (result: ToolResult, ghost step: Step<Option<Track>>, ghost before: SessionState)
    requires registry.Valid()
    modifies cache, TouchedSession(registry, LookupOutcome(cache, rendererName, env)),
             TouchedPort(registry, LookupOutcome(cache, rendererName, env))
    ensures registry.Valid()
    ensures Refreshed(cache, false, env)
    ensures var found := MatchRenderer(cache.renderers, rendererName);
      && (found.None? ==> result == Error(RendererNotFound(rendererName)))
      && (found.Some? && found.value.udn !in registry.sessions ==> result == Error(NoActivePlayback(found.value.name)))
      && (found.Some? && found.value.udn in registry.sessions ==>
            && before == old(StateAt(registry, found))
            && SkippedBack(registry.sessions[found.value.udn], found.value, result, step, before))
  {
    var renderer := cache.FindRenderer(rendererName, env);
    result, step, before := PreviousOn(registry, renderer, rendererName);
  }

  /**
   * The part of `previous_track` after the lookup, which found `found`: an
   * error without a session; otherwise the session's `previous`, a raised
   * skip escaping the tool.
   */
  method PreviousOn(registry: Registry, found: Option<Renderer>, rendererName: string)
    returns (result: ToolResult, ghost step: Step<Option<Track>>, ghost before: SessionState)
    requires registry.Valid()
    modifies TouchedSession(registry, found), TouchedPort(registry, found)
    ensures registry.Valid()
    ensures found.None? ==> result == Error(RendererNotFound(rendererName))
    ensures found.Some? && found.value.udn !in registry.sessions ==> result == Error(NoActivePlayback(found.value.name))
    ensures found.Some? && found.value.udn in registry.sessions ==>
      && before == old(StateAt(registry, found))
      && SkippedBack(registry.sessions[found.value.udn], found.value, result, step, before)
  {
    if found.None? {
      return Error(RendererNotFound(rendererName)), Ok(None), SessionState(0, None, null, []);
    }
    var renderer := found.value;
    var session := registry.GetSession(renderer.udn);
    if session.None? {
      return Error(NoActivePlayback(renderer.name)), Ok(None), SessionState(0, None, null, []);
    }
    var s := session.value;
    before := StateOf(s);
    var moved := s.Previous();
    step := moved;
    registry.OneSessionChanged(s);
    match moved
    case Raised(fault) =>
      result := Error(Unhandled(fault));
    case Ok(None) =>
      result := Error(AlreadyAtFirstTrack);
    case Ok(Some(track)) =>
      result := Skipped(renderer.name, s.currentIndex + 1, |s.tracks|, track.title, track.artist);
  }

  /** `get_status`: "idle" without a session, otherwise the session's status report. */
  method GetStatus(cache: DiscoveryCache, registry: Registry, env: Environment, rendererName: string) returns (result: ToolResult)
    requires registry.Valid()
    modifies cache
    ensures Refreshed(cache, false, env)
    ensures var found := MatchRenderer(cache.renderers, rendererName);
      && (found.None? ==> result == Error(RendererNotFound(rendererName)))
      && (found.Some? && found.value.udn !in registry.sessions ==> result == Idle(found.value.name))
      && (found.Some? && found.value.udn in registry.sessions ==>
            result == Status(registry.sessions[found.value.udn].Status()))
  {
    var renderer := cache.FindRenderer(rendererName, env);
    if renderer.None? {
      return Error(RendererNotFound(rendererName));
    }
    var session := registry.GetSession(renderer.value.udn);
    if session.None? {
      return Idle(renderer.value.name);
    }
    result := Status(session.value.Status());
  }

  /**
   * `set_volume`: an error without a renderer or a session; otherwise the
   * clamped volume is sent and reported as `VolumeApplied` says. Only that
   * session's handle changes.
   */
  method SetVolume(cache: DiscoveryCache, registry: Registry, env: Environment, rendererName: string, volume: int)
    returns (result: ToolResult)
    requires registry.Valid()
    modifies cache, TouchedPort(registry, LookupOutcome(cache, rendererName, env))
    ensures registry.Valid()
    ensures Refreshed(cache, false, env)
    ensures var found := MatchRenderer(cache.renderers, rendererName);
      && (found.None? ==> result == Error(RendererNotFound(rendererName)))
      && (found.Some? && found.value.udn !in registry.sessions ==> result == Error(NoActivePlayback(found.value.name)))
      && (found.Some? && found.value.udn in registry.sessions ==>
            var port := registry.sessions[found.value.udn].dmr;
            && VolumeApplied(port, found.value, ClampVolume(volume), result)
            && (port != null ==> port.sent == old(port.sent) + [SetVolumeLevel(ClampVolume(volume))]))
  {
    var renderer := cache.FindRenderer(rendererName, env);
    result := VolumeOn(registry, renderer, rendererName, volume);
  }

  /** The reply to a volume command on a (possibly absent) handle. */
  ghost predicate VolumeApplied(port: AvPort?, renderer: Renderer, volume: int, result: ToolResult) {
    && (port == null ==> result == Error(VolumeFailed(NoDevice)))
    && (port != null ==>
          result == (if SetVolumeOp in port.rejects then Error(VolumeFailed(Rejected(SetVolumeOp)))
                     else VolumeSet(renderer.name, volume)))
  }

  /**
   * The part of `set_volume` after the lookup, which found `found`: an
   * error without a session; otherwise the clamped volume is sent, and it
   * is also what the reply reports.
   */
  method VolumeOn(registry: Registry, found: Option<Renderer>, rendererName: string, volume: int) returns (result: ToolResult)
    requires registry.Valid()
    modifies TouchedPort(registry, found)
    ensures registry.Valid()
    ensures found.None? ==> result == Error(RendererNotFound(rendererName))
    ensures found.Some? && found.value.udn !in registry.sessions ==> result == Error(NoActivePlayback(found.value.name))
    ensures found.Some? && found.value.udn in registry.sessions ==>
      var port := registry.sessions[found.value.udn].dmr;
      && VolumeApplied(port, found.value, ClampVolume(volume), result)
      && (port != null ==> port.sent == old(port.sent) + [SetVolumeLevel(ClampVolume(volume))])
  {
    if found.None? {
      return Error(RendererNotFound(rendererName));
    }
    var session := registry.GetSession(found.value.udn);
    if session.None? {
      return Error(NoActivePlayback(found.value.name));
    }
    var clamped := ClampVolume(volume);
    var step := session.value.SetVolume(clamped);
    if step.Raised? {
      return Error(VolumeFailed(step.fault));
    }
    result := VolumeSet(found.value.name, clamped);
  }
}
