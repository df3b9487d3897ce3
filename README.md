# renfield-mcp-dlna, modelled in Dafny

An MCP server that finds DLNA media renderers on the local network and
plays a queue of tracks on one of them. Where the renderer supports it,
the next track is preloaded for gapless playback. The model has three layers:

- **Discovery** (`discovery.dfy`, with `text.dfy` and `urls.dfy` for the
  Python string and `urllib.parse` operations it relies on). It covers:
  - taking the LOCATION header out of an SSDP search response, per section
    1.3.3 of the UPnP Device Architecture 1.0;
  - collecting the locations without repeats, in first-arrival order;
  - turning a parsed device description into a renderer record, with
    resolved control URLs;
  - the gapless test: the AVTransport service description lists
    `SetNextAVTransportURI`, per section 2.4.2 of the UPnP AVTransport:1
    Service Template;
  - the five-minute renderer cache;
  - name lookup: exact match first, then substring match.
  Sockets, HTTP and XML parsing are abstracted:
  - the SSDP responses received before the deadline are an input sequence;
  - a `Network` value maps each fetchable URL to its already-parsed
    description document;
  - the clock readings are fields of an `Environment`.
- **Queue playback** (`queue.dfy`). It covers:
  - the `QueueSession` state machine: the current index, the outstanding
    preload, and the device handle;
  - the reaction to AVTransport events: gapless hand-off, explicit advance
    on renderers without gapless support, and queue finished;
  - skipping forward and back, stop, volume and status;
  - the registry, which files sessions by renderer UDN and owns the shared
    notify server.
  The AV-control device (`DmrDevice`) is an `AvPort` object. It records every
  command issued to it and raises on the command kinds it is configured to
  reject. A task that an event handler schedules runs to completion right
  after the handler.
- **Tool layer** (`server.dfy`). It covers:
  - volume clamping;
  - validation of the JSON track list;
  - the projection done by `list_renderers`;
  - how "renderer not found", "no active playback" and "already at the
    last/first track" map to error replies in each tool;
  - what each tool leaves alone: it changes the discovery cache, the
    renderer's own session and its handle, and for `play_tracks` and `stop`
    the registry, and nothing else. Each tool is the lookup followed by a
    method that takes its result; `LookupOutcome` says in advance what the
    lookup will return, so the tool's frame can name that session.

Every method is proved against a specification:
- the pass result `PassResult`;
- the command runs `Execute`, `SwitchedFrom`, `StartedWith` and `PreloadedFrom`;
- the event decision `Decide`;
- the session and registry invariants `QueueSession.Valid` and `Registry.Valid`.

The lemmas then prove what those specifications promise.

Two behaviours of the code worth knowing:
- Stopping a session does not clear its device handle (`_dmr`). So a stopped
  session's `status()` still says "playing", and stopping it again issues
  the stop and unsubscribe commands again. It is, however, no longer in the
  registry.
- `play_tracks` registers the new session before starting it. A session
  whose start raised therefore stays registered.

## Model

| member | source | states |
|---|---|---|
| Text.Lower | src/renfield_mcp_dlna/discovery.py:62 | lower-casing keeps the length and maps each character by its ASCII case mapping |
| Text.Strip | src/renfield_mcp_dlna/discovery.py:63 | the result is a slice of the input, everything outside it is whitespace, and it neither starts nor ends with whitespace |
| Text.SplitCRLF | src/renfield_mcp_dlna/discovery.py:61 | `split("\r\n")` yields at least one line, the first a prefix of the response; `SplitJoin` and `SplitLinesHaveNoCRLF` state the round trip and the absence of CRLF in the lines |
| Text.SplitJoin | src/renfield_mcp_dlna/discovery.py:61 | joining the CRLF-split lines with CRLF gives back the response |
| Text.SplitLinesHaveNoCRLF | src/renfield_mcp_dlna/discovery.py:61 | no line of the split contains a CRLF pair |
| Urls.IndexOf | src/renfield_mcp_dlna/discovery.py:71 | the index found holds the character and no earlier index does; -1 exactly when it is absent |
| Urls.RemoveUnsafeKeepsSafe | src/renfield_mcp_dlna/discovery.py:71 | deleting tab/CR/LF changes nothing in a URL that has none |
| Urls.SchemeIsCut | src/renfield_mcp_dlna/discovery.py:71 | a valid scheme before the first colon is split off and lower-cased |
| Urls.NetlocIsHost | src/renfield_mcp_dlna/discovery.py:71 | after `//`, the host up to the first `/`, `?` or `#` is the network location |
| Urls.BaseUrlFromLocation | src/renfield_mcp_dlna/discovery.py:67-72 | a base URL carries no tab, CR or LF; `BaseUrlOfHostUrl` states which base URL a `scheme://host<path>` location gives |
| Urls.BaseUrlOfHostUrl | src/renfield_mcp_dlna/discovery.py:67-72 | for `scheme://host<path>` the base URL is the lower-cased scheme, `://` and the host, whatever path follows |
| Discovery.HeaderValueFollowsName | src/renfield_mcp_dlna/discovery.py:62-63 | in a LOCATION line the first colon ends the header name, so the value is the text after `location:` |
| Discovery.FirstLocation | src/renfield_mcp_dlna/discovery.py:61-64 | None exactly when no line is a LOCATION header; otherwise the stripped value of the first such line |
| Discovery.ParseLocation | src/renfield_mcp_dlna/discovery.py:59-64 | the same result for the CRLF-separated lines of a response |
| Discovery.PresentNonEmpty | src/renfield_mcp_dlna/discovery.py:108-109 | a location is kept only when it is present and non-empty |
| Discovery.Dedup | src/renfield_mcp_dlna/discovery.py:109-110 | the de-duplicated list is no longer than the input and holds only its members; `DedupIsFirstArrivalOrder` states that each member appears once, in first-arrival order |
| Discovery.DedupIsFirstArrivalOrder | src/renfield_mcp_dlna/discovery.py:109-110 | the de-duplicated list holds every location once, in order of first arrival, and nothing else |
| Discovery.CollectLocations | src/renfield_mcp_dlna/discovery.py:98-117 | the collecting loop yields exactly the de-duplicated non-empty locations, in first-arrival order |
| Discovery.Resolve | src/renfield_mcp_dlna/discovery.py:172-176 | the resolved URL ends with the URL given; `ResolveMakesAbsolute` states when it is absolute and that resolution is idempotent |
| Discovery.ResolveMakesAbsolute | src/renfield_mcp_dlna/discovery.py:172-176 | absolute URLs are kept, empty ones stay empty, relative ones become absolute under an http base, and resolving twice is resolving once |
| Discovery.HasAction | src/renfield_mcp_dlna/discovery.py:211-216 | true exactly when some action has the name |
| Discovery.SupportsSetNext | src/renfield_mcp_dlna/discovery.py:189-216 | true exactly when the SCPD path is non-empty, its resolved URL can be fetched, and the SCPD lists SetNextAVTransportURI |
| Discovery.LastOfType | src/renfield_mcp_dlna/discovery.py:155-167 | a service found is one of the list and has the type; `LastOfTypeIsLast` states that it is the last such and that one is found whenever one exists |
| Discovery.LastOfTypeIsLast | src/renfield_mcp_dlna/discovery.py:155-167 | a service is found exactly when one has the type, and it is the last service of that type |
| Discovery.Describe | src/renfield_mcp_dlna/discovery.py:120-186 | a record exists exactly when the description is fetchable, has a device with a UDN and a service list, the base URL parses, and the last AVTransport service has a control URL; the record carries its location and UDN; its control URLs are absolute under an http base |
| Discovery.FetchDeviceDescription | src/renfield_mcp_dlna/discovery.py:120-186 | the service loop and the checks after it build exactly the record `Describe` specifies |
| Discovery.Successes | src/renfield_mcp_dlna/discovery.py:238-240 | a pass keeps at most one record per location; `SuccessesAreDescriptions` states which records those are |
| Discovery.SuccessesAreDescriptions | src/renfield_mcp_dlna/discovery.py:233-240 | a pass keeps at most one record per location; each is a successful description of a collected location, and none is dropped |
| Discovery.FetchAll | src/renfield_mcp_dlna/discovery.py:234-240 | the result loop keeps exactly the successful records, in location order |
| Discovery.EmptyOrForcedIsStale | src/renfield_mcp_dlna/discovery.py:226-227 | an empty cache and a forced call never use the cache; otherwise the cache is used exactly while younger than 300 seconds |
| Discovery.DiscoveryCache.constructor | src/renfield_mcp_dlna/discovery.py:43-44 | the cache starts empty with time 0 |
| Discovery.DiscoveryCache.Discover | src/renfield_mcp_dlna/discovery.py:219-250 | a fresh cache is returned and left unchanged; otherwise the cache is replaced wholesale by the pass result, stamped with the time the pass ended |
| Discovery.DiscoveryCache.FindRenderer | src/renfield_mcp_dlna/discovery.py:253-268 | the name match on the renderers of a non-forced discovery, which `LookupOutcome` computes from the cache as it was before the call |
| Discovery.FirstExactMatch | src/renfield_mcp_dlna/discovery.py:258-261 | the first renderer whose lower-cased name equals the query; None exactly when there is none |
| Discovery.FirstSubstringMatch | src/renfield_mcp_dlna/discovery.py:263-266 | the first renderer whose lower-cased name contains the query; None exactly when there is none |
| Discovery.MatchRendererPicks | src/renfield_mcp_dlna/discovery.py:253-268 | None exactly when no lower-cased name contains the lower-cased query; otherwise the first exact match, or when there is none the first substring match |
| Discovery.ExactMatchWins | src/renfield_mcp_dlna/discovery.py:258-261 | when some name equals the query up to case, the renderer found has such a name |
| QueueManager.Execute | src/renfield_mcp_dlna/queue_manager.py:110-119 | awaited commands are issued in order up to and including the first one that raises, and nothing after it; no failure exactly when no command kind is rejected |
| QueueManager.ExecuteCons | src/renfield_mcp_dlna/queue_manager.py:110-119 | running a plan is running its first command, then the rest unless the first raised |
| QueueManager.StartRun | src/renfield_mcp_dlna/queue_manager.py:110-119 | the start commands are the subscription followed, if it succeeds and a first track exists, by that track's set-URI and play commands |
| QueueManager.AvPort.Send | src/renfield_mcp_dlna/queue_manager.py:118-119 | every command is recorded and succeeds unless its kind is rejected |
| QueueManager.Decide | src/renfield_mcp_dlna/queue_manager.py:128-168 | a non-empty batch is needed for any reaction; a hand-off needs the preloaded track's URI to be reported; an advance needs STOPPED, no gapless support and a next track; a finished queue needs STOPPED at the last track; `GaplessTakesPriority`, `StoppedRules` and `EmptyEventIgnored` state the converse directions |
| QueueManager.GaplessTakesPriority | src/renfield_mcp_dlna/queue_manager.py:138-150 | a report of the preloaded track's URI is a gapless hand-off whatever the transport state |
| QueueManager.StoppedRules | src/renfield_mcp_dlna/queue_manager.py:152-168 | otherwise an explicit advance exactly on STOPPED without gapless support before the last track; the queue is finished exactly on STOPPED at the last track; any other state is ignored |
| QueueManager.EmptyEventIgnored | src/renfield_mcp_dlna/queue_manager.py:128-129 | an empty batch of state variables is ignored |
| QueueManager.QueueSession.constructor | src/renfield_mcp_dlna/queue_manager.py:93-98 | a new session is at index 0 with no preload and no device handle |
| QueueManager.QueueSession.SwitchTo | src/renfield_mcp_dlna/queue_manager.py:226-227 | the set-URI and play commands are issued up to the first that raises |
| QueueManager.QueueSession.Start | src/renfield_mcp_dlna/queue_manager.py:100-124 | the notify server is running afterwards; without a device the start raises; otherwise a fresh handle receives the start commands, an empty queue raises after subscribing, and a completed start preloads the second track |
| QueueManager.QueueSession.Connect | src/renfield_mcp_dlna/queue_manager.py:106-124 | the same, from the creation of the device handle on |
| QueueManager.QueueSession.OnEvent | src/renfield_mcp_dlna/queue_manager.py:126-168 | ignored events change nothing; a gapless hand-off moves to the preloaded index and preloads the next track without a set-URI command; an explicit advance moves forward one track and sends the switch commands; a finished queue removes the UDN from the registry and stops the server when it is empty; the session invariant holds |
| QueueManager.QueueSession.AutoAdvance | src/renfield_mcp_dlna/queue_manager.py:170-189 | at the end nothing changes; otherwise the index moves forward exactly one, the preload is cleared and the switch commands are issued, failures swallowed |
| QueueManager.QueueSession.PreloadNext | src/renfield_mcp_dlna/queue_manager.py:191-213 | with a following track, gapless support and a handle, exactly one SetNextAVTransportURI is sent and the preload is set on success and cleared on failure; otherwise nothing is sent and the preload is kept |
| QueueManager.QueueSession.Next | src/renfield_mcp_dlna/queue_manager.py:215-233 | None exactly at the last track, with nothing changed; otherwise the index moves forward exactly one and the renderer is switched to that track, which is returned |
| QueueManager.QueueSession.Previous | src/renfield_mcp_dlna/queue_manager.py:235-253 | None exactly at the first track, with nothing changed; otherwise the index moves back exactly one and the renderer is switched to that track, which is returned |
| QueueManager.QueueSession.SwitchCurrent | src/renfield_mcp_dlna/queue_manager.py:220-228 | without a handle the skip raises; a rejected switch raises with the preload cleared; a completed one returns the track and preloads the next |
| QueueManager.QueueSession.Stop | src/renfield_mcp_dlna/queue_manager.py:255-267 | with a handle, stop and unsubscribe are both issued whatever they raise; the UDN leaves the registry |
| QueueManager.QueueSession.SetVolume | src/renfield_mcp_dlna/queue_manager.py:269-273 | raises without a handle; otherwise issues the volume command, which raises when rejected |
| QueueManager.QueueSession.Cleanup | src/renfield_mcp_dlna/queue_manager.py:275-281 | the UDN leaves the registry, and the server is running afterwards exactly when a session remains |
| QueueManager.QueueSession.Status | src/renfield_mcp_dlna/queue_manager.py:283-294 | reports track = index + 1 within the queue length, "playing" exactly when a handle exists, and the current track's fields exactly when the queue is not empty |
| QueueManager.Registry.constructor | src/renfield_mcp_dlna/queue_manager.py:20-26 | the registry starts empty with the server down |
| QueueManager.Registry.EnsureInfrastructure | src/renfield_mcp_dlna/queue_manager.py:45-63 | the server is running afterwards, and a running server is left as it is |
| QueueManager.Registry.ShutdownInfrastructure | src/renfield_mcp_dlna/queue_manager.py:66-72 | the server is down afterwards |
| QueueManager.Registry.PlayTracks | src/renfield_mcp_dlna/queue_manager.py:297-307 | an existing session on the UDN receives stop and unsubscribe; a fresh session replaces it under that UDN alone and is started; the registry stays keyed by UDN with the server running |
| QueueManager.Registry.StopExisting | src/renfield_mcp_dlna/queue_manager.py:300-302 | the session on the UDN, if any, is stopped and leaves the registry |
| QueueManager.Registry.Register | src/renfield_mcp_dlna/queue_manager.py:304-305 | the session is filed under its renderer's UDN and the registry stays keyed |
| QueueManager.Registry.GetSession | src/renfield_mcp_dlna/queue_manager.py:310-312 | the session exactly when one is filed under the UDN, belonging to that renderer |
| QueueManager.Registry.AllSessions | src/renfield_mcp_dlna/queue_manager.py:315-317 | the same UDNs as the registry, each mapped to the session registered under it, which belongs to that renderer |
| Server.ClampVolume | src/renfield_mcp_dlna/server.py:243 | the result lies in 0..100, equals an in-range volume, and is 0 below and 100 above |
| Server.Listing | src/renfield_mcp_dlna/server.py:38-44 | one entry per renderer, in order, with its name and gapless flag |
| Server.ListRenderers | src/renfield_mcp_dlna/server.py:28-45 | total equals the number of renderers discovered, with their listing |
| Server.FirstMissingUrl | src/renfield_mcp_dlna/server.py:76-78 | the first index whose entry is not an object with a truthy url; None exactly when every entry is one |
| Server.TrackList | src/renfield_mcp_dlna/server.py:67-85 | invalid JSON and a non-list or empty list are rejected; otherwise success exactly when every entry has a url, with one track per entry, and a failure names the first bad index |
| Server.ValidateTracks | src/renfield_mcp_dlna/server.py:67-85 | the validation loop returns exactly the `TrackList` outcome |
| Server.TrackListAsWritten | src/renfield_mcp_dlna/server.py:75-88 | as written, validation never succeeds: the first entry with a url raises TypeError |
| Server.MediaTypeBreaksValidation | src/renfield_mcp_dlna/server.py:79-88 | a one-track list that the checks accept raises as written |
| Server.PlayTracks | src/renfield_mcp_dlna/server.py:48-106 | changes only the cache, the registry and the handle of the session the lookup finds. An unknown renderer or a bad track list is an error that leaves the registry and every handle alone. Otherwise a fresh session holding the tracks, at the first one, replaces the renderer's entry and the server runs. The old session's handle, if any, receives stop and unsubscribe. Without a device the new session has no handle; otherwise its fresh handle rejects what the device rejects and received the start commands. The reply is a playback error exactly when the device is missing or a start command raises, and otherwise names the first track |
| Server.PlayOn | src/renfield_mcp_dlna/server.py:67-106 | the same, once the lookup has returned, changing only the registry and the handle of the renderer's session |
| Server.StartedFailsExactly | src/renfield_mcp_dlna/server.py:90-106 | a start reply is an error exactly when the device is missing or a start command raises, and then a playback error |
| Server.Stop | src/renfield_mcp_dlna/server.py:109-121 | changes only the cache, the registry and the handle of the session the lookup finds. An unknown renderer or no session is an error with the registry and every handle unchanged. Otherwise the handle, if any, receives stop and unsubscribe, the UDN leaves the registry, and the server runs afterwards exactly when a session remains |
| Server.StopOn | src/renfield_mcp_dlna/server.py:115-121 | the same, once the lookup has returned, changing only the registry and the handle of the renderer's session |
| Server.NextTrack | src/renfield_mcp_dlna/server.py:160-184 | changes only the cache, the session the lookup finds and its handle. An unknown renderer or no session is an error that changes no session and no handle. At the last track the reply is "already at last track" and the index, the preload and the handle's commands are as before. Otherwise the index moves one further on and the handle receives the switch and preload commands `SwitchedFrom` describes. The reply is then the escaping fault when there is no handle or a switch command raises, and the new 1-based position otherwise |
| Server.NextOn | src/renfield_mcp_dlna/server.py:167-184 | the same, once the lookup has returned, changing only the renderer's session and its handle |
| Server.PreviousTrack | src/renfield_mcp_dlna/server.py:187-211 | changes only the cache, the session the lookup finds and its handle. An unknown renderer or no session is an error that changes no session and no handle. At the first track the reply is "already at first track" and the index, the preload and the handle's commands are as before. Otherwise the index moves one back and the handle receives the switch and preload commands `SwitchedFrom` describes. The reply is then the escaping fault when there is no handle or a switch command raises, and the new 1-based position otherwise |
| Server.PreviousOn | src/renfield_mcp_dlna/server.py:194-211 | the same, once the lookup has returned, changing only the renderer's session and its handle |
| Server.GetStatus | src/renfield_mcp_dlna/server.py:214-229 | unknown renderer is an error, no session is "idle", otherwise the session's status |
| Server.SetVolume | src/renfield_mcp_dlna/server.py:232-248 | changes only the cache and the handle of the session the lookup finds. An unknown renderer or no session is an error that changes no handle. Otherwise the clamped volume is appended to the handle's commands and reported, or the failure is reported |
| Server.VolumeOn | src/renfield_mcp_dlna/server.py:239-248 | once the lookup has returned, changes only the handle of the renderer's session; the clamped volume is the one sent to that handle and the one in the reply |

## Findings

| source | as written | input that shows it | evidently intended | confidence | as-written member | corrected member |
|---|---|---|---|---|---|---|
| src/renfield_mcp_dlna/server.py:79-88 | every entry with a url is passed to `Track` with a `media_type` keyword. The `Track` dataclass (queue_manager.py:75-83) declares no such field, so a TypeError escapes the tool at the first valid entry | tracks `[{"url": "http://host/a.flac"}]` | build the track from its five fields and start playback | high; not executed | Server.TrackListAsWritten, Server.MediaTypeBreaksValidation | Server.TrackList |

## Left out

- Socket and HTTP I/O are inputs: the M-SEARCH send, the receive deadline, and the aiohttp fetches with their status and timeout checks. `_detect_local_ip` is left out, and so are the UDP and HTTP error paths other than "could not be fetched".
- XML parsing is left out; descriptions are already-parsed datatypes. A child element missing from an element reads as "".
- `didl.py` is not part of this model. The DIDL-Lite metadata sent with a transport URI is a function of the track, which stands in for it.
- asyncio concurrency is left out: `create_task`, `gather` and any interleaving of event handlers with tool calls. Scheduled tasks run right after the handler that scheduled them.
- QueueSession.SetVolume: the float conversion `volume / 100.0` is not modelled; the command carries the integer volume.
- The `pause` and `resume` tools are not modelled. They call methods that `QueueSession` does not define.
- Discovery.DiscoveryCache.Discover: the clock is two readings supplied by the caller, the one the freshness test uses and the one stamped on the cache.
- Text.Lower: case mapping is restricted to ASCII; Python's full Unicode `lower()` is not modelled.
- Urls.BaseUrlFromLocation, Urls.BaseUrlOfHostUrl: of `urlparse`'s checks only the unbalanced-bracket ValueError is modelled. Its IPv6 bracket validation and its NFKC netloc check for non-ASCII hosts are not.
- Server.TrackList: track fields that are present but not strings become "" in the model; Python would carry the raw JSON value.
- Error messages are modelled as kinds of error, not as their text.
- FastMCP setup, `main()`, environment variables and logging are left out.
