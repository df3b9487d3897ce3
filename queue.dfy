/**
 * The queue playback state machine: one session per renderer, reacting to
 * AVTransport LastChange events, with gapless preloading through
 * SetNextAVTransportURI where the renderer supports it, and a registry
 * keyed by renderer UDN that owns the shared UPnP event infrastructure.
 *
 * The AV-control device is an abstract port that records every command
 * issued to it and refuses the kinds of command it is configured to
 * reject. Background tasks scheduled by an event handler run to
 * completion right after the handler's own work.
 */
module QueueManager {
  import opened Wrappers
  import opened Discovery

  /** One entry of the playback queue (`Track`). */
  datatype Track = Track(url: string, title: string, artist: string, album: string, artUrl: string)

  /** The kinds of command the device handle can be asked to perform. */
  datatype Op = SubscribeOp | UnsubscribeOp | SetTransportUriOp | SetNextTransportUriOp | PlayOp | StopOp | SetVolumeOp

  /**
   * One call on the device handle. The DIDL-Lite metadata that accompanies a
   * transport URI is a function of the track and is carried as the track itself.
   */
  datatype Command =
    | Subscribe
    | Unsubscribe
    | SetTransportUri(track: Track)
    | SetNextTransportUri(track: Track)
    | Play
    | Stop
    | SetVolumeLevel(volume: int)
  {
    function Kind(): Op {
      match this
      case Subscribe => SubscribeOp
      case Unsubscribe => UnsubscribeOp
      case SetTransportUri(_) => SetTransportUriOp
      case SetNextTransportUri(_) => SetNextTransportUriOp
      case Play => PlayOp
      case Stop => StopOp
      case SetVolumeLevel(_) => SetVolumeOp
    }
  }

  /** What running a sequence of awaited commands did: the ones issued, and the one that raised. */
  datatype Run = Run(sent: seq<Command>, failure: Option<Op>)

  /**
   * Awaiting the commands of `plan` one after another on a device that
   * rejects the kinds in `rejects`: the first rejected command raises and
   * nothing after it is issued.
   */
  function Execute(plan: seq<Command>, rejects: set<Op>): (run: Run)
    ensures |run.sent| <= |plan| && run.sent == plan[..|run.sent|]
    ensures run.failure.None? <==> forall k :: 0 <= k < |plan| ==> plan[k].Kind() !in rejects
    ensures run.failure.None? ==> run.sent == plan
    ensures run.failure.Some? ==>
      && run.sent != []
      && run.failure.value == run.sent[|run.sent| - 1].Kind()
      && run.failure.value in rejects
      && forall k :: 0 <= k < |run.sent| - 1 ==> run.sent[k].Kind() !in rejects
  {
    if plan == [] then Run([], None)
    else if plan[0].Kind() in rejects then Run([plan[0]], Some(plan[0].Kind()))
    else
      var rest := Execute(plan[1..], rejects);
      assert forall k :: 1 <= k < |plan| ==> plan[k] == plan[1..][k - 1];
      Run([plan[0]] + rest.sent, rest.failure)
  }

  /** Running a plan is running its first command, then the rest unless the first raised. */
  lemma ExecuteCons(c: Command, rest: seq<Command>, rejects: set<Op>)
    ensures Execute([c] + rest, rejects)
      == if c.Kind() in rejects then Run([c], Some(c.Kind()))
         else Run([c] + Execute(rest, rejects).sent, Execute(rest, rejects).failure)
  {
    assert ([c] + rest)[1..] == rest;
  }

  /** Switching the renderer to a track: set the transport URI, then play. */
  function SwitchPlan(track: Track): seq<Command> {
    [SetTransportUri(track), Play]
  }

  /** What `start` awaits: subscribe, then switch to the first track if there is one. */
  function StartPlan(tracks: seq<Track>): seq<Command> {
    [Subscribe] + (if tracks == [] then [] else SwitchPlan(tracks[0]))
  }

  /** The start commands run as the subscription followed, when it succeeds, by the first switch. */
  lemma StartRun(tracks: seq<Track>, rejects: set<Op>)
    ensures Execute(StartPlan(tracks), rejects)
      == if SubscribeOp in rejects then Run([Subscribe], Some(SubscribeOp))
         else if tracks == [] then Run([Subscribe], None)
         else Run([Subscribe] + Execute(SwitchPlan(tracks[0]), rejects).sent,
                  Execute(SwitchPlan(tracks[0]), rejects).failure)
  {
    var tail := if tracks == [] then [] else SwitchPlan(tracks[0]);
    assert StartPlan(tracks) == [Subscribe] + tail;
    ExecuteCons(Subscribe, tail, rejects);
  }

  /** Why an operation raised. */
  datatype Fault =
    | DeviceUnavailable      // the device could not be created from its location
    | NoDevice               // the session has no device handle
    | NoTracks               // the queue is empty, so there is no first track
    | Rejected(op: Op)       // the device raised on this command

  /** A value, or the exception that was raised instead. */
  datatype Step<+T> = Ok(value: T) | Raised(fault: Fault)

  /** The commands a (possibly absent) device handle has received. */
  ghost function SentOf(port: AvPort?): seq<Command>
    reads port
  {
    if port == null then [] else port.sent
  }

  /** The AV-control device handle (`DmrDevice`) as a recording port. */
  class AvPort {
    var sent: seq<Command>
    const rejects: set<Op>

    constructor (rejects: set<Op>)
      ensures sent == [] && this.rejects == rejects
    {
      sent := [];
      this.rejects := rejects;
    }

    /** Issue one command; it is recorded, and it succeeds unless its kind is rejected. */
    method Send(c: Command) returns (ok: bool)
      modifies this
      ensures sent == old(sent) + [c]
      ensures ok == (c.Kind() !in rejects)
    {
      sent := sent + [c];
      ok := c.Kind() !in rejects;
    }
  }

  // ---------------------------------------------------------------------
  // Event classification
  // ---------------------------------------------------------------------

  /** What `_on_event` does with one batch of state variables. */
  datatype Reaction = Ignore | GaplessHandoff | ExplicitAdvance | QueueFinished

  function Lookup(vars: map<string, string>, key: string): Option<string> {
    if key in vars then Some(vars[key]) else None
  }

  /**
   * The decision of `_on_event`, in its priority order. A missing and an
   * empty batch of state variables are the same empty map here, as both
   * are falsy in the source.
   */
  function Decide(vars: map<string, string>, tracks: seq<Track>, currentIndex: nat,
                  preloadedIndex: Option<nat>, supportsNext: bool): (r: Reaction)
    requires preloadedIndex.Some? ==> preloadedIndex.value < |tracks|
    ensures r != Ignore ==> vars != map[]
    ensures r == GaplessHandoff ==>
      preloadedIndex.Some? && Lookup(vars, "CurrentTrackURI") == Some(tracks[preloadedIndex.value].url)
    ensures r == ExplicitAdvance ==>
      Lookup(vars, "TransportState") == Some("STOPPED") && !supportsNext && currentIndex + 1 < |tracks|
    ensures r == QueueFinished ==> Lookup(vars, "TransportState") == Some("STOPPED") && currentIndex + 1 >= |tracks|
  {
    if vars == map[] then Ignore
    else
      var state := Lookup(vars, "TransportState");
      var uri := Lookup(vars, "CurrentTrackURI");
      if uri.Some? && uri.value != "" && preloadedIndex.Some? && uri.value == tracks[preloadedIndex.value].url
      then GaplessHandoff
      else if state == Some("STOPPED") && !supportsNext && currentIndex < |tracks| - 1
      then ExplicitAdvance
      else if state == Some("STOPPED") && currentIndex >= |tracks| - 1
      then QueueFinished
      else Ignore
  }

  /** A report of the preloaded track's URI is a gapless hand-off, whatever the transport state says. */
  lemma GaplessTakesPriority(vars: map<string, string>, tracks: seq<Track>, currentIndex: nat, p: nat, supportsNext: bool)
    requires p < |tracks|
    requires "CurrentTrackURI" in vars && vars["CurrentTrackURI"] != ""
    requires vars["CurrentTrackURI"] == tracks[p].url
    ensures Decide(vars, tracks, currentIndex, Some(p), supportsNext) == GaplessHandoff
  {
  }

  /**
   * When the event is not a gapless hand-off, the STOPPED rules decide: an
   * explicit advance needs a renderer without gapless support and a next
   * track, the queue is finished at the last track, and a STOPPED event
   * before the end on a gapless renderer is ignored.
   */
  lemma StoppedRules(vars: map<string, string>, tracks: seq<Track>, currentIndex: nat,
                     preloadedIndex: Option<nat>, supportsNext: bool)
    requires preloadedIndex.Some? ==> preloadedIndex.value < |tracks|
    requires Decide(vars, tracks, currentIndex, preloadedIndex, supportsNext) != GaplessHandoff
    ensures var d := Decide(vars, tracks, currentIndex, preloadedIndex, supportsNext);
      && (d == ExplicitAdvance <==> vars != map[] && Lookup(vars, "TransportState") == Some("STOPPED")
                                     && !supportsNext && currentIndex + 1 < |tracks|)
      && (d == QueueFinished <==> vars != map[] && Lookup(vars, "TransportState") == Some("STOPPED")
                                   && currentIndex + 1 >= |tracks|)
      && (Lookup(vars, "TransportState") != Some("STOPPED") ==> d == Ignore)
  {
  }

  /** An empty batch of state variables is ignored. */
  lemma EmptyEventIgnored(tracks: seq<Track>, currentIndex: nat, preloadedIndex: Option<nat>, supportsNext: bool)
    requires preloadedIndex.Some? ==> preloadedIndex.value < |tracks|
    ensures Decide(map[], tracks, currentIndex, preloadedIndex, supportsNext) == Ignore
  {
  }

  /** Whether a session's device handle is present in a status report. */
  datatype PlaybackState = Playing | Stopped

  /** The dictionary returned by `status()`; absent track fields are None. */
  datatype SessionStatus = SessionStatus(
    renderer: string,
    state: PlaybackState,
    track: int,
    totalTracks: nat,
    title: Option<string>,
    artist: Option<string>,
    album: Option<string>)

  // ---------------------------------------------------------------------
  // Sessions
  // ---------------------------------------------------------------------

  /** Queue playback on one renderer (`QueueSession`). */
  class QueueSession {
    const renderer: Renderer
    const tracks: seq<Track>
    /** The registry this session removes itself from when it cleans up. */
    const registry: Registry
    var currentIndex: nat
    var preloadedIndex: Option<nat>
    var dmr: AvPort?

    /**
     * The index is in range (or 0 for an empty queue), and an outstanding
     * preload is always the track right after the current one, on a
     * renderer that supports gapless playback and has a device handle.
     */
    ghost predicate Valid()
      reads this
    {
      && (currentIndex < |tracks| || currentIndex == 0)
      && (preloadedIndex.Some? ==>
            && preloadedIndex.value == currentIndex + 1
            && preloadedIndex.value < |tracks|
            && renderer.supportsNext
            && dmr != null)
    }

    constructor (renderer: Renderer, tracks: seq<Track>, registry: Registry)
      ensures this.renderer == renderer && this.tracks == tracks && this.registry == registry
      ensures currentIndex == 0 && preloadedIndex.None? && dmr == null
      ensures Valid()
    {
      this.renderer := renderer;
      this.tracks := tracks;
      this.registry := registry;
      currentIndex := 0;
      preloadedIndex := None;
      dmr := null;
    }

    /**
     * The state `_preload_next` leaves, given the preload and the commands
     * before it ran: when the following track exists, gapless is supported
     * and there is a handle, exactly one SetNextAVTransportURI for that track
     * is issued and the preload records it on success and is cleared on
     * failure; otherwise nothing is issued and the preload is kept.
     */
    ghost predicate PreloadedFrom(oldPreload: Option<nat>, oldSent: seq<Command>)
      reads this, dmr
    {
      if currentIndex + 1 < |tracks| && renderer.supportsNext && dmr != null then
        && dmr.sent == oldSent + [SetNextTransportUri(tracks[currentIndex + 1])]
        && preloadedIndex == (if SetNextTransportUriOp in dmr.rejects then None else Some(currentIndex + 1))
      else
        preloadedIndex == oldPreload && SentOf(dmr) == oldSent
    }

    /**
     * The state a skip leaves once the index has moved to the new track:
     * a missing handle raises; otherwise the switch commands are issued,
     * a rejected one raises with the preload cleared, and a completed
     * switch returns the track and preloads the one after it.
     */
    ghost predicate SwitchedFrom(r: Step<Option<Track>>, oldSent: seq<Command>)
      reads this, dmr
      requires currentIndex < |tracks|
    {
      if dmr == null then r == Raised(NoDevice) && preloadedIndex.None?
      else
        var run := Execute(SwitchPlan(tracks[currentIndex]), dmr.rejects);
        if run.failure.Some? then
          r == Raised(Rejected(run.failure.value)) && preloadedIndex.None? && dmr.sent == oldSent + run.sent
        else
          r == Ok(Some(tracks[currentIndex])) && PreloadedFrom(None, oldSent + run.sent)
    }

    /**
     * The state `start` leaves on a freshly created handle: the start
     * commands up to the first rejected one; an empty queue raises after
     * the subscription; a completed start preloads the second track.
     */
    ghost predicate StartedWith(r: Step<()>)
      reads this, dmr
      requires dmr != null
    {
      var run := Execute(StartPlan(tracks), dmr.rejects);
      if run.failure.Some? then
        r == Raised(Rejected(run.failure.value)) && dmr.sent == run.sent && preloadedIndex.None?
      else if tracks == [] then
        r == Raised(NoTracks) && dmr.sent == run.sent && preloadedIndex.None?
      else
        r == Ok(()) && PreloadedFrom(None, run.sent)
    }

    /** The set-URI and play commands for one track, stopping at the first that raises. */
    method SwitchTo(track: Track) returns (failure: Option<Op>)
      requires dmr != null
      modifies dmr
      ensures dmr.sent == old(dmr.sent) + Execute(SwitchPlan(track), dmr.rejects).sent
      ensures failure == Execute(SwitchPlan(track), dmr.rejects).failure
    {
      var plan := SwitchPlan(track);
      assert plan[1..] == [Play] && plan[1..][1..] == [];
      var ok := dmr.Send(SetTransportUri(track));
      if !ok {
        return Some(SetTransportUriOp);
      }
      ok := dmr.Send(Play);
      if !ok {
        return Some(PlayOp);
      }
      return None;
    }

    /**
     * `start`: bring up the shared infrastructure, create the device handle
     * (None means the device could not be created), subscribe, play the
     * first track and preload the second.
     */
    method Start(device: Option<set<Op>>) returns (r: Step<()>)
      requires Valid() && registry.Keyed()
      requires currentIndex == 0 && preloadedIndex.None?
      modifies this`dmr, this`preloadedIndex, registry`notifyServerRunning
      ensures Valid() && registry.Valid()
      ensures registry.notifyServerRunning && registry.sessions == old(registry.sessions)
      ensures currentIndex == 0
      ensures device.None? ==> r == Raised(DeviceUnavailable) && dmr == old(dmr) && preloadedIndex.None?
      ensures device.Some? ==> fresh(dmr) && dmr.rejects == device.value && StartedWith(r)
    {
      registry.EnsureInfrastructure();
      if device.None? {
        return Raised(DeviceUnavailable);
      }
      r := Connect(device.value);
    }

    /** The part of `start` after the device handle has been created. */
    method Connect(rejects: set<Op>) returns (r: Step<()>)
      requires Valid() && currentIndex == 0 && preloadedIndex.None?
      modifies this`dmr, this`preloadedIndex
      ensures Valid() && currentIndex == 0
      ensures fresh(dmr) && dmr.rejects == rejects && StartedWith(r)
    {
      dmr := new AvPort(rejects);
      StartRun(tracks, rejects);
      ghost var run := Execute(StartPlan(tracks), rejects);
      var ok := dmr.Send(Subscribe);
      if !ok {
        assert run == Run([Subscribe], Some(SubscribeOp));
        return Raised(Rejected(SubscribeOp));
      }
      if tracks == [] {
        assert run == Run([Subscribe], None);
        return Raised(NoTracks);
      }
      var failure := SwitchTo(tracks[0]);
      assert dmr.sent == run.sent && failure == run.failure;
      if failure.Some? {
        return Raised(Rejected(failure.value));
      }
      if |tracks| > 1 && renderer.supportsNext {
        PreloadNext();
      }
      r := Ok(());
    }

    /**
     * `_on_event`: classify the event (see `Decide`) and run what it
     * schedules: a gapless hand-off moves to the preloaded track and
     * preloads the following one without any set-URI command; an explicit
     * advance runs `_auto_advance`; a finished queue runs `_cleanup`.
     */
    method OnEvent(vars: map<string, string>)
      requires Valid() && registry.Valid()
      modifies this`currentIndex, this`preloadedIndex, dmr, registry`sessions, registry`notifyServerRunning
      ensures Valid() && registry.Valid()
      ensures var d := Decide(vars, tracks, old(currentIndex), old(preloadedIndex), renderer.supportsNext);
        && (d == Ignore ==>
              && currentIndex == old(currentIndex) && preloadedIndex == old(preloadedIndex)
              && SentOf(dmr) == old(SentOf(dmr))
              && registry.sessions == old(registry.sessions)
              && registry.notifyServerRunning == old(registry.notifyServerRunning))
        && (d == GaplessHandoff ==>
              && currentIndex == old(preloadedIndex).value
              && PreloadedFrom(None, old(SentOf(dmr)))
              && registry.sessions == old(registry.sessions)
              && registry.notifyServerRunning == old(registry.notifyServerRunning))
        && (d == ExplicitAdvance ==>
              && currentIndex == old(currentIndex) + 1
              && preloadedIndex.None?
              && SentOf(dmr) == old(SentOf(dmr)) + (if dmr == null then [] else Execute(SwitchPlan(tracks[currentIndex]), dmr.rejects).sent)
              && registry.sessions == old(registry.sessions)
              && registry.notifyServerRunning == old(registry.notifyServerRunning))
        && (d == QueueFinished ==>
              && currentIndex == old(currentIndex) && preloadedIndex == old(preloadedIndex)
              && SentOf(dmr) == old(SentOf(dmr))
              && registry.sessions == old(registry.sessions) - {renderer.udn}
              && (registry.notifyServerRunning <==> registry.sessions != map[]))
    {
      if vars == map[] {
        return;
      }
      var transportState := Lookup(vars, "TransportState");
      var currentUri := Lookup(vars, "CurrentTrackURI");
      if currentUri.Some? && currentUri.value != "" && preloadedIndex.Some? {
        var preloaded := tracks[preloadedIndex.value];
        if currentUri.value == preloaded.url {
          currentIndex := preloadedIndex.value;
          preloadedIndex := None;
          PreloadNext();
          return;
        }
      }
      if transportState == Some("STOPPED") && !renderer.supportsNext && currentIndex < |tracks| - 1 {
        AutoAdvance();
        return;
      }
      if transportState == Some("STOPPED") && currentIndex >= |tracks| - 1 {
        Cleanup();
      }
    }

    /**
     * `_auto_advance`: at the end of the queue nothing happens; otherwise the
     * index moves forward by exactly one, the preload is cleared and the
     * switch commands are issued. Failures are swallowed.
     */
    method AutoAdvance()
      requires Valid()
      modifies this`currentIndex, this`preloadedIndex, dmr
      ensures Valid()
      ensures old(currentIndex) + 1 >= |tracks| ==>
        currentIndex == old(currentIndex) && preloadedIndex == old(preloadedIndex) && SentOf(dmr) == old(SentOf(dmr))
      ensures old(currentIndex) + 1 < |tracks| ==>
        && currentIndex == old(currentIndex) + 1
        && preloadedIndex.None?
        && SentOf(dmr) == old(SentOf(dmr)) + (if dmr == null then [] else Execute(SwitchPlan(tracks[currentIndex]), dmr.rejects).sent)
    {
      if currentIndex + 1 >= |tracks| {
        return;
      }
      currentIndex := currentIndex + 1;
      preloadedIndex := None;
      var track := tracks[currentIndex];
      if dmr != null {
        var _ := SwitchTo(track);
      }
    }

    /** `_preload_next`; it never raises: a rejected command clears the preload. */
    method PreloadNext()
      requires Valid()
      modifies this`preloadedIndex, dmr
      ensures Valid()
      ensures PreloadedFrom(old(preloadedIndex), old(SentOf(dmr)))
    {
      var nextIndex := currentIndex + 1;
      if nextIndex >= |tracks| || !renderer.supportsNext {
        return;
      }
      if dmr == null {
        return;
      }
      var track := tracks[nextIndex];
      var ok := dmr.Send(SetNextTransportUri(track));
      if ok {
        preloadedIndex := Some(nextIndex);
      } else {
        preloadedIndex := None;
      }
    }

    /**
     * `next`: at the last track it returns None and changes nothing;
     * otherwise the index moves forward by exactly one and the renderer is
     * switched to that track.
     */
    method Next() returns (r: Step<Option<Track>>)
      requires Valid()
      modifies this`currentIndex, this`preloadedIndex, dmr
      ensures Valid()
      ensures old(currentIndex) + 1 >= |tracks| ==>
        && r == Ok(None)
        && currentIndex == old(currentIndex) && preloadedIndex == old(preloadedIndex)
        && SentOf(dmr) == old(SentOf(dmr))
      ensures old(currentIndex) + 1 < |tracks| ==>
        currentIndex == old(currentIndex) + 1 && SwitchedFrom(r, old(SentOf(dmr)))
      ensures r == Ok(None) <==> old(currentIndex) + 1 >= |tracks|
      ensures r.Ok? && r.value.Some? ==> currentIndex == old(currentIndex) + 1 && r.value.value == tracks[currentIndex]
    {
      if currentIndex + 1 >= |tracks| {
        return Ok(None);
      }
      currentIndex := currentIndex + 1;
      preloadedIndex := None;
      r := SwitchCurrent();
    }

    /**
     * `previous`: at the first track it returns None and changes nothing;
     * otherwise the index moves back by exactly one and the renderer is
     * switched to that track.
     */
    method Previous() returns (r: Step<Option<Track>>)
      requires Valid()
      modifies this`currentIndex, this`preloadedIndex, dmr
      ensures Valid()
      ensures old(currentIndex) == 0 ==>
        && r == Ok(None)
        && currentIndex == old(currentIndex) && preloadedIndex == old(preloadedIndex)
        && SentOf(dmr) == old(SentOf(dmr))
      ensures old(currentIndex) > 0 ==>
        currentIndex == old(currentIndex) - 1 && SwitchedFrom(r, old(SentOf(dmr)))
      ensures r == Ok(None) <==> old(currentIndex) == 0
      ensures r.Ok? && r.value.Some? ==> currentIndex + 1 == old(currentIndex) && r.value.value == tracks[currentIndex]
    {
      if currentIndex <= 0 {
        return Ok(None);
      }
      currentIndex := currentIndex - 1;
      preloadedIndex := None;
      r := SwitchCurrent();
    }

    /** The common tail of `next` and `previous`, once the index has moved and the preload is cleared. */
    method SwitchCurrent() returns (r: Step<Option<Track>>)
      requires currentIndex < |tracks| && preloadedIndex.None?
      modifies this`preloadedIndex, dmr
      ensures Valid()
      ensures SwitchedFrom(r, old(SentOf(dmr)))
      ensures r != Ok(None) && (r.Ok? ==> r.value == Some(tracks[currentIndex]))
    {
      if dmr == null {
        return Raised(NoDevice);
      }
      var track := tracks[currentIndex];
      var failure := SwitchTo(track);
      if failure.Some? {
        return Raised(Rejected(failure.value));
      }
      PreloadNext();
      r := Ok(Some(track));
    }

    /**
     * `stop`: with a handle, a Stop and an Unsubscribe are issued whether or
     * not either raises; then the session cleans up.
     */
    method Stop()
      requires registry.Valid()
      modifies dmr, registry`sessions, registry`notifyServerRunning
      ensures registry.Valid()
      ensures SentOf(dmr) == old(SentOf(dmr)) + (if dmr == null then [] else [Command.Stop, Unsubscribe])
      ensures registry.sessions == old(registry.sessions) - {renderer.udn}
      ensures registry.notifyServerRunning <==> registry.sessions != map[]
    {
      if dmr != null {
        var _ := dmr.Send(Command.Stop);
        var _ := dmr.Send(Unsubscribe);
      }
      Cleanup();
    }

    /**
     * `set_volume`: raises without a handle; otherwise issues the volume
     * command, which may itself raise.
     */
    method SetVolume(volume: int) returns (r: Step<()>)
      modifies dmr
      ensures dmr == null ==> r == Raised(NoDevice)
      ensures dmr != null ==>
        && dmr.sent == old(dmr.sent) + [SetVolumeLevel(volume)]
        && r == (if SetVolumeOp in dmr.rejects then Raised(Rejected(SetVolumeOp)) else Ok(()))
    {
      if dmr == null {
        return Raised(NoDevice);
      }
      var ok := dmr.Send(SetVolumeLevel(volume));
      r := if ok then Ok(()) else Raised(Rejected(SetVolumeOp));
    }

    /**
     * `_cleanup`: this renderer's UDN leaves the registry, and the shared
     * infrastructure is shut down exactly when no session remains.
     */
    method Cleanup()
      requires registry.Valid()
      modifies registry`sessions, registry`notifyServerRunning
      ensures registry.Valid()
      ensures registry.sessions == old(registry.sessions) - {renderer.udn}
      ensures registry.notifyServerRunning <==> registry.sessions != map[]
    {
      registry.sessions := registry.sessions - {renderer.udn};
      if registry.sessions == map[] {
        registry.ShutdownInfrastructure();
      }
    }

    /**
     * `status()`: the 1-based position and the queue length, "playing"
     * exactly when a device handle exists, and the current track's fields
     * when the queue is not empty.
     */
    function Status(): (s: SessionStatus)
      reads this
      requires Valid()
      ensures s.renderer == renderer.name
      ensures s.state == Playing <==> dmr != null
      ensures s.track == currentIndex + 1 && s.totalTracks == |tracks|
      ensures tracks != [] ==> 1 <= s.track <= s.totalTracks
      ensures s.title.Some? <==> tracks != []
      ensures s.title.Some? ==>
        && s.artist.Some? && s.album.Some?
        && s.title.value == tracks[s.track - 1].title
        && s.artist.value == tracks[s.track - 1].artist
        && s.album.value == tracks[s.track - 1].album
    {
      var track := if tracks != [] then Some(tracks[currentIndex]) else None;
      SessionStatus(
        renderer := renderer.name,
        state := if dmr != null then Playing else Stopped,
        track := currentIndex + 1,
        totalTracks := |tracks|,
        title := if track.Some? then Some(track.value.title) else None,
        artist := if track.Some? then Some(track.value.artist) else None,
        album := if track.Some? then Some(track.value.album) else None)
    }
  }

  // ---------------------------------------------------------------------
  // The registry and the shared infrastructure
  // ---------------------------------------------------------------------

  /** The module-level `_sessions` dictionary and the notify-server lifecycle. */
  class Registry {
    var sessions: map<string, QueueSession>
    var notifyServerRunning: bool

    /** Each session is filed under its own renderer's UDN, points back here, and is valid. */
    ghost predicate Keyed()
      reads this, sessions.Values
    {
      forall udn :: udn in sessions ==>
        && sessions[udn].renderer.udn == udn
        && sessions[udn].registry == this
        && sessions[udn].Valid()
    }

    /** Keyed, and the notify server is up whenever a session is registered. */
    ghost predicate Valid()
      reads this, sessions.Values
    {
      Keyed() && (sessions != map[] ==> notifyServerRunning)
    }

    /** The device handles of the registered sessions. */
    ghost function Ports(): set<AvPort>
      reads this, sessions.Values
    {
      set s | s in sessions.Values && s.dmr != null :: s.dmr
    }

    /** The session filed under `udn`, as a frame: empty when there is none. */
    ghost function SessionOf(udn: string): set<QueueSession>
      reads this
    {
      if udn in sessions then {sessions[udn]} else {}
    }

    /** The device handle of the session filed under `udn`, as a frame: empty when there is none. */
    ghost function PortOf(udn: string): (ports: set<AvPort>)
      reads this, sessions.Values
      ensures ports <= Ports()
    {
      if udn in sessions && sessions[udn].dmr != null then {sessions[udn].dmr} else {}
    }

    constructor ()
      ensures Valid() && sessions == map[] && !notifyServerRunning
    {
      sessions := map[];
      notifyServerRunning := false;
    }

    /** `_ensure_infrastructure`: afterwards the server is up; a second call changes nothing. */
    method EnsureInfrastructure()
      modifies this`notifyServerRunning
      ensures notifyServerRunning
    {
      if notifyServerRunning {
        return;
      }
      notifyServerRunning := true;
    }

    /** `_shutdown_infrastructure`. */
    method ShutdownInfrastructure()
      modifies this`notifyServerRunning
      ensures !notifyServerRunning
    {
      notifyServerRunning := false;
    }

    /**
     * `play_tracks`: stop the session already on this renderer, if any,
     * register a new session under the renderer's UDN and start it. The new
     * session stays registered even when its start raises.
     */
    method PlayTracks(renderer: Renderer, tracks: seq<Track>, device: Option<set<Op>>)
      returns (session: QueueSession, r: Step<()>)
      requires Valid()
      modifies this, if renderer.udn in sessions then {sessions[renderer.udn].dmr} else {}
      ensures Valid()
      ensures fresh(session)
      ensures sessions == old(sessions)[renderer.udn := session]
      ensures notifyServerRunning
      ensures session.renderer == renderer && session.tracks == tracks && session.registry == this
      ensures session.currentIndex == 0
      ensures device.None? ==> r == Raised(DeviceUnavailable) && session.dmr == null && session.preloadedIndex.None?
      ensures device.Some? ==> fresh(session.dmr) && session.dmr.rejects == device.value && session.StartedWith(r)
      ensures renderer.udn in old(sessions) ==>
        var port := old(sessions[renderer.udn].dmr);
        SentOf(port) == old(SentOf(port)) + (if port == null then [] else [Command.Stop, Unsubscribe])
    {
      ghost var before := sessions;
      StopExisting(renderer.udn);
      session := new QueueSession(renderer, tracks, this);
      Register(session);
      ReplaceEntry(before, renderer.udn, session);
      r := session.Start(device);
    }

    /** Overwriting an entry after removing it is overwriting it. */
    static lemma ReplaceEntry(m: map<string, QueueSession>, k: string, v: QueueSession)
      ensures (m - {k})[k := v] == m[k := v]
    {
      assert (m - {k})[k := v].Keys == m[k := v].Keys;
    }

    /** The first step of `play_tracks`: the session on this UDN, if any, is stopped and leaves. */
    method StopExisting(udn: string)
      requires Valid()
      modifies this, if udn in sessions then {sessions[udn].dmr} else {}
      ensures Valid()
      ensures sessions == old(sessions) - {udn}
      ensures udn in old(sessions) ==>
        var port := old(sessions[udn].dmr);
        SentOf(port) == old(SentOf(port)) + (if port == null then [] else [Command.Stop, Unsubscribe])
    {
      if udn in sessions {
        var existing := sessions[udn];
        existing.Stop();
      }
    }

    /** Filing a fresh session under its renderer's UDN keeps the registry keyed. */
    method Register(session: QueueSession)
      requires Keyed() && session.registry == this && session.Valid()
      modifies this`sessions
      ensures Keyed()
      ensures sessions == old(sessions)[session.renderer.udn := session]
    {
      sessions := sessions[session.renderer.udn := session];
    }

    /**
     * The registry stays valid when one of its sessions changes its own
     * fields into a valid state and every other session is left as it was.
     */
    twostate lemma OneSessionChanged(s: QueueSession)
      requires old(Valid())
      requires unchanged(this)
      requires s.Valid()
      requires forall t :: t in sessions.Values && t != s ==> unchanged(t)
      ensures Valid()
    {
      forall udn | udn in sessions
        ensures sessions[udn].renderer.udn == udn && sessions[udn].registry == this && sessions[udn].Valid()
      {
        var t := sessions[udn];
        assert t in sessions.Values;
        if t != s {
          assert old(t.Valid());
        }
      }
    }

    /** `get_session`: the session filed under this UDN, which belongs to that renderer. */
    function GetSession(udn: string): (s: Option<QueueSession>)
      reads this, sessions.Values
      requires Valid()
      ensures s.Some? <==> udn in sessions
      ensures s.Some? ==> s.value == sessions[udn]
      ensures s.Some? ==> s.value.renderer.udn == udn && s.value.Valid() && s.value.registry == this
    {
      if udn in sessions then Some(sessions[udn]) else None
    }

    /** `get_all_sessions`: a copy of the registry, every entry filed under its renderer's UDN. */
    function AllSessions(): (all: map<string, QueueSession>)
      reads this, sessions.Values
      requires Valid()
      ensures all.Keys == sessions.Keys
      ensures forall udn :: udn in all ==> all[udn] == sessions[udn]
      ensures forall udn :: udn in all ==> all[udn].renderer.udn == udn && all[udn].Valid()
    {
      sessions
    }
  }
}
