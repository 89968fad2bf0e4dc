# Google Media Framework for Android: playback reporter, session and ad coordinator in Dafny

This project models the small amount of original logic in Google Media Framework for
Android. That logic sits between two SDKs the framework does not contain: a playback engine
(ExoPlayer 2) and an ads SDK (IMA). Four Java classes are modelled.

- **Video** (`video.dfy`, module `Video`). An immutable descriptor: URL, format and an
  optional content id. `toMediaSource` is a total mapping from format to the kind of media
  source handed to the engine: DASH, HLS, or the generic extractor source.
- **ExoplayerWrapper** (`exoplayer_wrapper.dfy`, module `Exoplayer`). The playback-state
  reporter.
  - It keeps a listener list and remembers the last reported
    `(playWhenReady, playbackState)` pair.
  - An engine report is passed on only when that pair changed.
  - `play`/`pause` notify every listener unconditionally.
  - Errors are fanned out to every listener.
  - The engine is reduced to fields: play-when-ready, state, position and duration, plus a
    log of the commands sent to it (prepare, seek, play-when-ready, release). The
    wrapper's own registration as the engine's listener is not recorded.
  - Listener callbacks are an append-only log of (listener, event) deliveries.
- **SimpleVideoPlayer** (`simple_video_player.dfy`, module `LayeredVideo`). One session.
  - Construction creates a wrapper, then loads, prepares and seeks, in that order.
  - `show`/`hide` flip the surface's media-overlay flag.
  - Everything else is forwarded to the wrapper.
- **ImaPlayer** (`ima_player.dfy`, module `AdPlayer`). The dual-player coordinator.
  - It holds one content player and at most one ad player, a list of ad-lifecycle
    callbacks, and the ordered child views of the host container.
  - Calls to the ads SDK are recorded in a log: the ads loader's creation, then every
    call on the ads loader and the ads manager, except the listener registrations on the
    ads manager.
  - The SDK's callbacks into the class (ad events, ad errors, the `VideoAdPlayer`
    requests) are methods.
  - The invariant `Valid` holds after every operation. It says:
    - there is no repeated view;
    - the ad UI container, whenever it is in the container, is the topmost view;
    - the only ad view in the container is the current one, and while it is set it sits
      directly under the ad UI container;
    - the content wrapper's only listener is the content listener, and the ad wrapper's only
      listener is the ad listener.

Shared pieces:
- `fanout.dfy` (`Fanout`): `Broadcast`, one delivery per target in list order, the shape
  of every notification loop.
- `registry.dfy` (`Registry`): `RemoveFirst`, the semantics of Java's `List.remove(Object)`
  and `ViewGroup.removeView`.
- `maybe.dfy` (`Maybe`): `Option`, for Java's nullable references.

The wrappers cannot call into `ImaPlayer`. Each wrapper has exactly one listener, which the
invariant guarantees. So after a play, a pause or an engine report, `ImaPlayer` runs the body
of that listener on what was delivered.

Two source behaviours are kept exactly as written:
- `loadAd` overwrites the stored ad tag URL with the ad's media URI.
- `release` leaves the ad player's view in the container.

Playback states are the engine's integer codes: IDLE 1, BUFFERING 2, READY 3, ENDED 4.

## Model

| member | source | states |
|---|---|---|
| Video.Video.ToMediaSource | googlemediaframework/src/main/java/com/google/android/libraries/mediaframework/exoplayerextensions/Video.java:100-119 | the source is built from the video's own URL; its kind is Dash exactly for DASH, Hls exactly for HLS, and Extractor exactly for MP4 or OTHER, so every format gets exactly one kind |
| Video.NewVideo | googlemediaframework/src/main/java/com/google/android/libraries/mediaframework/exoplayerextensions/Video.java:63-76 | the two-argument constructor leaves the content id absent and keeps URL and format as given |
| Video.SourceIgnoresContentId | googlemediaframework/src/main/java/com/google/android/libraries/mediaframework/exoplayerextensions/Video.java:100-119 | the content id plays no part in the source built |
| Fanout.Broadcast | googlemediaframework/src/main/java/com/google/android/libraries/mediaframework/exoplayerextensions/ExoplayerWrapper.java:246-252 | a notification loop delivers the event once to each listener, in list order |
| Fanout.BroadcastAppend | demo/src/main/java/com/google/googlemediaframeworkdemo/demo/adplayer/ImaPlayer.java:492-494 | notifying a list is notifying its first part, then its second part; this is the loop invariant step |
| Fanout.BroadcastTargets | googlemediaframework/src/main/java/com/google/android/libraries/mediaframework/exoplayerextensions/ExoplayerWrapper.java:320-324 | the recipients of a broadcast are exactly the listeners, in order |
| Registry.RemoveFirst | googlemediaframework/src/main/java/com/google/android/libraries/mediaframework/exoplayerextensions/ExoplayerWrapper.java:222-224 | an absent element leaves the list unchanged; a present one shortens it by exactly one |
| Registry.RemoveFirstSplices | googlemediaframework/src/main/java/com/google/android/libraries/mediaframework/exoplayerextensions/ExoplayerWrapper.java:222-224 | removal cuts out exactly the first occurrence: the elements before and after it stay, in order |
| Registry.RemoveAfterAdd | googlemediaframework/src/main/java/com/google/android/libraries/mediaframework/exoplayerextensions/ExoplayerWrapper.java:213-224 | adding a listener that was not registered and then removing it restores the list |
| Registry.DistinctIndices | demo/src/main/java/com/google/googlemediaframeworkdemo/demo/adplayer/ImaPlayer.java:500-506 | the recursive no-repeats predicate holds exactly when no two positions hold the same view |
| Registry.DistinctAppend | demo/src/main/java/com/google/googlemediaframeworkdemo/demo/adplayer/ImaPlayer.java:466-473 | adding a view that is not yet a child keeps the children free of repeats |
| Registry.RemoveFirstDistinct | demo/src/main/java/com/google/googlemediaframeworkdemo/demo/adplayer/ImaPlayer.java:500-506 | in a list without repeats, removal leaves exactly the other elements, still without repeats |
| Exoplayer.ExoplayerWrapper.constructor | googlemediaframework/src/main/java/com/google/android/libraries/mediaframework/exoplayerextensions/ExoplayerWrapper.java:112-129 | the engine starts idle, not playing, with duration unknown; no listeners and no deliveries; the last reported pair is (false, IDLE), since the construction-time report finds no listener list |
| Exoplayer.ExoplayerWrapper.LoadVideo | googlemediaframework/src/main/java/com/google/android/libraries/mediaframework/exoplayerextensions/ExoplayerWrapper.java:194-197 | the engine is handed the media source of the video |
| Exoplayer.ExoplayerWrapper.AddListener | googlemediaframework/src/main/java/com/google/android/libraries/mediaframework/exoplayerextensions/ExoplayerWrapper.java:213-215 | the listener is appended, even if already registered |
| Exoplayer.ExoplayerWrapper.RemoveListener | googlemediaframework/src/main/java/com/google/android/libraries/mediaframework/exoplayerextensions/ExoplayerWrapper.java:222-224 | the first registration of the listener is removed, and the others keep their order |
| Exoplayer.ExoplayerWrapper.NotifyListeners | googlemediaframework/src/main/java/com/google/android/libraries/mediaframework/exoplayerextensions/ExoplayerWrapper.java:247-251 | every listener receives the event once, in list order |
| Exoplayer.ExoplayerWrapper.MaybeReportPlayerState | googlemediaframework/src/main/java/com/google/android/libraries/mediaframework/exoplayerextensions/ExoplayerWrapper.java:339-349 | deliveries follow the suppression rule for the old last-reported pair and the engine's pair; afterwards the engine's pair is the last reported one |
| Exoplayer.ExoplayerWrapper.Prepare | googlemediaframework/src/main/java/com/google/android/libraries/mediaframework/exoplayerextensions/ExoplayerWrapper.java:230-232 | a report under the suppression rule |
| Exoplayer.ExoplayerWrapper.OnPlayerStateChanged | googlemediaframework/src/main/java/com/google/android/libraries/mediaframework/exoplayerextensions/ExoplayerWrapper.java:315-317 | a report under the suppression rule that uses the engine's pair, not the arguments |
| Exoplayer.ExoplayerWrapper.OnPlayerError | googlemediaframework/src/main/java/com/google/android/libraries/mediaframework/exoplayerextensions/ExoplayerWrapper.java:320-324 | the error goes to every listener in order; the log is the only state that changes |
| Exoplayer.ExoplayerWrapper.SeekTo | googlemediaframework/src/main/java/com/google/android/libraries/mediaframework/exoplayerextensions/ExoplayerWrapper.java:242-244 | exactly one seek is sent to the engine |
| Exoplayer.ExoplayerWrapper.Play | googlemediaframework/src/main/java/com/google/android/libraries/mediaframework/exoplayerextensions/ExoplayerWrapper.java:246-252 | play-when-ready becomes true and every listener is told (true, current state), even when unchanged; the last reported pair is left alone |
| Exoplayer.ExoplayerWrapper.Pause | googlemediaframework/src/main/java/com/google/android/libraries/mediaframework/exoplayerextensions/ExoplayerWrapper.java:254-259 | play-when-ready becomes false and every listener is told (false, current state) unconditionally |
| Exoplayer.ExoplayerWrapper.Release | googlemediaframework/src/main/java/com/google/android/libraries/mediaframework/exoplayerextensions/ExoplayerWrapper.java:264-266 | exactly one engine release per call, with no guard against a second call |
| Exoplayer.ExoplayerWrapper.GetPlaybackState | googlemediaframework/src/main/java/com/google/android/libraries/mediaframework/exoplayerextensions/ExoplayerWrapper.java:271-273 | the engine's playback state |
| Exoplayer.ExoplayerWrapper.GetCurrentPosition | googlemediaframework/src/main/java/com/google/android/libraries/mediaframework/exoplayerextensions/ExoplayerWrapper.java:279-281 | the engine's position |
| Exoplayer.ExoplayerWrapper.GetDuration | googlemediaframework/src/main/java/com/google/android/libraries/mediaframework/exoplayerextensions/ExoplayerWrapper.java:286-288 | the engine's duration |
| Exoplayer.ReportDeliveries | googlemediaframework/src/main/java/com/google/android/libraries/mediaframework/exoplayerextensions/ExoplayerWrapper.java:339-349 | nothing is delivered exactly when the pair is unchanged or there are no listeners; otherwise every listener gets the current pair, in order |
| Exoplayer.ReportIsIdempotent | googlemediaframework/src/main/java/com/google/android/libraries/mediaframework/exoplayerextensions/ExoplayerWrapper.java:339-349 | a second report with unchanged engine state delivers nothing, so two reports in a row deliver what one does |
| Exoplayer.ExoplayerWrapper.ReportTwice | googlemediaframework/src/main/java/com/google/android/libraries/mediaframework/exoplayerextensions/ExoplayerWrapper.java:339-349 | two reports in a row with the engine left alone deliver exactly what the first one delivers |
| LayeredVideo.SimpleVideoPlayer.constructor | googlemediaframework/src/main/java/com/google/android/libraries/mediaframework/layeredvideo/SimpleVideoPlayer.java:57-62 | the same outcome as the five-argument constructor with start position 0 |
| LayeredVideo.SimpleVideoPlayer.WithStartPosition | googlemediaframework/src/main/java/com/google/android/libraries/mediaframework/layeredvideo/SimpleVideoPlayer.java:70-84 | a fresh wrapper receives load then seek to the start position, and nothing else; the prepare report is suppressed; no play happens although autoplay is stored; the overlay is off |
| LayeredVideo.SimpleVideoPlayer.AddPlaybackListener | googlemediaframework/src/main/java/com/google/android/libraries/mediaframework/layeredvideo/SimpleVideoPlayer.java:92-94 | the listener is appended to the wrapper's list |
| LayeredVideo.SimpleVideoPlayer.GetCurrentPosition | googlemediaframework/src/main/java/com/google/android/libraries/mediaframework/layeredvideo/SimpleVideoPlayer.java:100-102 | the wrapper's position, unchanged |
| LayeredVideo.SimpleVideoPlayer.GetDuration | googlemediaframework/src/main/java/com/google/android/libraries/mediaframework/layeredvideo/SimpleVideoPlayer.java:108-110 | the wrapper's duration, unchanged (-1 while unknown) |
| LayeredVideo.SimpleVideoPlayer.Hide | googlemediaframework/src/main/java/com/google/android/libraries/mediaframework/layeredvideo/SimpleVideoPlayer.java:116-121 | for a SurfaceView surface the overlay becomes false, otherwise nothing changes; the wrapper is never touched |
| LayeredVideo.SimpleVideoPlayer.Show | googlemediaframework/src/main/java/com/google/android/libraries/mediaframework/layeredvideo/SimpleVideoPlayer.java:142-147 | for a SurfaceView surface the overlay becomes true, otherwise nothing changes; the wrapper is never touched |
| LayeredVideo.SimpleVideoPlayer.Pause | googlemediaframework/src/main/java/com/google/android/libraries/mediaframework/layeredvideo/SimpleVideoPlayer.java:127-129 | exactly one wrapper pause: one engine call, one broadcast |
| LayeredVideo.SimpleVideoPlayer.Play | googlemediaframework/src/main/java/com/google/android/libraries/mediaframework/layeredvideo/SimpleVideoPlayer.java:134-136 | exactly one wrapper play: one engine call, one broadcast |
| LayeredVideo.SimpleVideoPlayer.Release | googlemediaframework/src/main/java/com/google/android/libraries/mediaframework/layeredvideo/SimpleVideoPlayer.java:152-154 | exactly one wrapper release per call |
| AdPlayer.AdProgress | demo/src/main/java/com/google/googlemediaframeworkdemo/demo/adplayer/ImaPlayer.java:300-316 | not ready exactly when both players are absent; the ad player's progress whenever it exists; otherwise the content player's |
| AdPlayer.ContentProgress | demo/src/main/java/com/google/googlemediaframeworkdemo/demo/adplayer/ImaPlayer.java:321-327 | not ready exactly when an ad player exists, the content player is absent, or the content duration is not positive; otherwise the content progress |
| AdPlayer.ProgressProvidersAgree | demo/src/main/java/com/google/googlemediaframeworkdemo/demo/adplayer/ImaPlayer.java:300-327 | whenever content progress is reported, ad progress reports the same thing; while an ad player exists only its progress is reported |
| AdPlayer.WithoutAdViewsContents | demo/src/main/java/com/google/googlemediaframeworkdemo/demo/adplayer/ImaPlayer.java:500-506 | removing the ad view and the ad UI container leaves exactly the other views, with no repeats |
| AdPlayer.AdLayout | demo/src/main/java/com/google/googlemediaframeworkdemo/demo/adplayer/ImaPlayer.java:461-473 | after ad-player creation: no repeated views; the ad UI container is the last child and the new ad view is directly below it; the old ad view is gone; every other view is kept |
| AdPlayer.NewAdViewIsFresh | demo/src/main/java/com/google/googlemediaframeworkdemo/demo/adplayer/ImaPlayer.java:466-473 | a container whose only ad view has a lower number than the views created so far does not hold the next ad view |
| AdPlayer.AdEngineCalls | demo/src/main/java/com/google/googlemediaframeworkdemo/demo/adplayer/ImaPlayer.java:476-481 | the ad's engine is given the ad URL as a generic extractor source (the MP4 kind), then seeks to 0, then plays |
| AdPlayer.NewAdPlayer | demo/src/main/java/com/google/googlemediaframeworkdemo/demo/adplayer/ImaPlayer.java:476-483 | a fresh autoplay player for the URL as MP4 on a SurfaceView, prepared and seeked to 0 but not playing; its engine is idle at position 0 with duration unknown, and its last reported pair is (false, IDLE); the ad listener is its only listener |
| AdPlayer.ImaPlayer.constructor | demo/src/main/java/com/google/googlemediaframeworkdemo/demo/adplayer/ImaPlayer.java:338-386 | the invariant holds; the content view and the ad UI container are added on top of the existing views; the content player is prepared without autoplay, hidden and GONE; its engine is idle at position 0 with duration unknown, and its last reported pair is (false, IDLE), so the first ENDED report reaches contentComplete and content progress is NOT_READY; there is no ad player and no callback; the SDK log holds exactly the loader's creation and the registration of the ad listener for errors and for loaded ads, in that order |
| AdPlayer.ImaPlayer.NotifyCallbacks | demo/src/main/java/com/google/googlemediaframeworkdemo/demo/adplayer/ImaPlayer.java:492-494 | every registered callback receives the notification once, in registration order |
| AdPlayer.ImaPlayer.OnContentStateChanged | demo/src/main/java/com/google/googlemediaframeworkdemo/demo/adplayer/ImaPlayer.java:185-189 | the ads loader receives exactly `ContentListenerCalls` of the reported state: contentComplete once for ENDED, nothing otherwise |
| AdPlayer.ImaPlayer.OnAdStateChanged | demo/src/main/java/com/google/googlemediaframeworkdemo/demo/adplayer/ImaPlayer.java:150-156 | the callbacks receive exactly `AdListenerCallbacks` of the reported state: onEnded to every callback for ENDED, nothing otherwise |
| AdPlayer.ImaPlayer.DestroyAdPlayer | demo/src/main/java/com/google/googlemediaframeworkdemo/demo/adplayer/ImaPlayer.java:500-512 | no ad player and no ad view remain; the ad view and the ad UI container are no longer children and every other child is kept; the previous ad player, if any, is released once; the invariant is kept |
| AdPlayer.ImaPlayer.HideContentPlayer | demo/src/main/java/com/google/googlemediaframeworkdemo/demo/adplayer/ImaPlayer.java:517-521 | the content is paused, with overlay false and view GONE; its listener reacts to the one pause broadcast |
| AdPlayer.ImaPlayer.ShowContentPlayer | demo/src/main/java/com/google/googlemediaframeworkdemo/demo/adplayer/ImaPlayer.java:526-529 | the content view is VISIBLE and the content plays; its listener reacts to the one play broadcast |
| AdPlayer.ImaPlayer.PlaceAdView | demo/src/main/java/com/google/googlemediaframeworkdemo/demo/adplayer/ImaPlayer.java:466-473 | a new, never-used ad view is added, and the ad UI container is put back on top of it |
| AdPlayer.ImaPlayer.StartAdPlayer | demo/src/main/java/com/google/googlemediaframeworkdemo/demo/adplayer/ImaPlayer.java:476-494 | a fresh autoplay MP4 player for the URL is prepared, seeked to 0 and playing, with overlay true; its engine is idle at position 0 with duration unknown and its last reported pair is (false, IDLE), so its first ENDED report reaches every callback as onEnded; the content overlay is false; each callback gets onPlay once |
| AdPlayer.ImaPlayer.CreateAdPlayer | demo/src/main/java/com/google/googlemediaframeworkdemo/demo/adplayer/ImaPlayer.java:461-495 | the old ad player is released and replaced by a fresh one that plays the ad tag URL as MP4, with overlay true, its engine idle at position 0 with duration unknown and its last reported pair (false, IDLE); the content overlay is false; the children follow the AdLayout function; every callback gets onPlay once; the invariant, including at most one ad player, is kept |
| AdPlayer.ImaPlayer.PauseContent | demo/src/main/java/com/google/googlemediaframeworkdemo/demo/adplayer/ImaPlayer.java:534-539 | the content is hidden, then every callback gets onPause |
| AdPlayer.ImaPlayer.ResumeContent | demo/src/main/java/com/google/googlemediaframeworkdemo/demo/adplayer/ImaPlayer.java:544-550 | the ad player is destroyed and the content is shown and playing, then every callback gets onResume |
| AdPlayer.ImaPlayer.PlayAd | demo/src/main/java/com/google/googlemediaframeworkdemo/demo/adplayer/ImaPlayer.java:250-252 | the content is hidden |
| AdPlayer.ImaPlayer.LoadAd | demo/src/main/java/com/google/googlemediaframeworkdemo/demo/adplayer/ImaPlayer.java:255-258 | the media URI becomes the ad tag URL, and an ad player for it is created as in CreateAdPlayer, with the same fresh engine state and last reported pair (false, IDLE) |
| AdPlayer.ImaPlayer.StopAd | demo/src/main/java/com/google/googlemediaframeworkdemo/demo/adplayer/ImaPlayer.java:261-264 | the ad player is destroyed and the content is shown, with no callback notified |
| AdPlayer.ImaPlayer.PauseAd | demo/src/main/java/com/google/googlemediaframeworkdemo/demo/adplayer/ImaPlayer.java:267-271 | no ad player: nothing happens; otherwise the ad is paused and the ad listener reacts to the broadcast |
| AdPlayer.ImaPlayer.ResumeAd | demo/src/main/java/com/google/googlemediaframeworkdemo/demo/adplayer/ImaPlayer.java:274-278 | no ad player: nothing happens; otherwise the ad plays and the ad listener reacts to the broadcast |
| AdPlayer.ImaPlayer.AddCallback | demo/src/main/java/com/google/googlemediaframeworkdemo/demo/adplayer/ImaPlayer.java:281-283 | the callback is appended, even if already registered |
| AdPlayer.ImaPlayer.RemoveCallback | demo/src/main/java/com/google/googlemediaframeworkdemo/demo/adplayer/ImaPlayer.java:286-288 | the first registration of the callback is removed |
| AdPlayer.ImaPlayer.GetAdProgress | demo/src/main/java/com/google/googlemediaframeworkdemo/demo/adplayer/ImaPlayer.java:300-316 | the ad-progress selection applied to the two players' current position and duration |
| AdPlayer.ImaPlayer.GetContentProgress | demo/src/main/java/com/google/googlemediaframeworkdemo/demo/adplayer/ImaPlayer.java:321-327 | the content-progress selection applied to the players' current state |
| AdPlayer.ImaPlayer.OnContentEngineStateChanged | demo/src/main/java/com/google/googlemediaframeworkdemo/demo/adplayer/ImaPlayer.java:184-189 | an engine state change that reaches the content listener (under the suppression rule) calls contentComplete when the state is ENDED; a suppressed one does nothing |
| AdPlayer.ImaPlayer.OnAdEngineStateChanged | demo/src/main/java/com/google/googlemediaframeworkdemo/demo/adplayer/ImaPlayer.java:149-156 | an ad engine state change that reaches the ad listener sends onEnded to every callback when the state is ENDED; with no ad player nothing happens |
| AdPlayer.ImaPlayer.OnAdError | demo/src/main/java/com/google/googlemediaframeworkdemo/demo/adplayer/ImaPlayer.java:209-217 | the content resumes exactly as in ResumeContent |
| AdPlayer.ImaPlayer.OnAdEvent | demo/src/main/java/com/google/googlemediaframeworkdemo/demo/adplayer/ImaPlayer.java:220-234 | LOADED starts the ads manager and nothing else; CONTENT_PAUSE_REQUESTED pauses the content; CONTENT_RESUME_REQUESTED resumes it and leaves the content player's surface flag alone; any other event changes nothing |
| AdPlayer.ImaPlayer.OnAdsManagerLoaded | demo/src/main/java/com/google/googlemediaframeworkdemo/demo/adplayer/ImaPlayer.java:237-242 | the ads manager is kept and initialised once |
| AdPlayer.ImaPlayer.Pause | demo/src/main/java/com/google/googlemediaframeworkdemo/demo/adplayer/ImaPlayer.java:422-427 | the content is always paused; the ad player is paused too if one exists |
| AdPlayer.ImaPlayer.Play | demo/src/main/java/com/google/googlemediaframeworkdemo/demo/adplayer/ImaPlayer.java:432-439 | with an ad tag URL, ads are requested for it and the content is untouched; without one, the content is made VISIBLE and played |
| AdPlayer.ImaPlayer.Release | demo/src/main/java/com/google/googlemediaframeworkdemo/demo/adplayer/ImaPlayer.java:444-456 | the ad player, if any, is released once and forgotten; the ads manager, if any, is destroyed and forgotten; the SDK receives destroy (only with an ads manager), contentComplete and the loaded-listener removal, in that order; the content player is released once |

## Left out

- DRM setup (`createDrmSessionManager`, `buildDrmSessionManager`, the key-request pairing loop) and `OfflineLicenseProvider`: these only build foreign DRM and HTTP objects.
- Engine internals are foreign and asynchronous:
  - track selection, the bandwidth meter, the data-source factories, media-source construction, handler threads;
  - the engine's own state changes and progress. `SetEngineState` and `SetEngineProgress` stand in for them.
- `Exoplayer.ExoplayerWrapper.SeekTo`: records the seek but does not move the modelled position, because positions are opaque engine values.
- Ads SDK internals are foreign: the ads loader, the ads manager, VAST handling and how the ads request is built.
  - SDK calls are recorded, and the SDK's callbacks are methods.
  - `AdPlayer.ImaPlayer.Play`: a request is recorded as its ad tag URL only. Its display container and content progress provider are not modelled.
  - `AdPlayer.ImaPlayer.OnAdsManagerLoaded`: registering the listeners on the ads manager is not modelled.
  - `AdPlayer.ImaPlayer.OnAdEvent`: requires an ads manager for LOADED, because the SDK only sends ad events from an ads manager.
- Android views are UI. Only these are kept: the ordered child list, the content view's visibility and each surface's overlay flag. Also left out:
  - layout parameters, `setUseController`, `Log`, `Toast`;
  - the error message of `onAdError`;
  - `originalContainerLayoutParams`.
- `AdPlayer.ImaPlayer.constructor`: the player views' surfaces are taken to be SurfaceViews, which is the default for the engine's player view. Settings objects (player type and version) are not modelled.
- The three `ImaPlayer` constructors are one constructor with an optional ad tag URL. The settings-taking overload differs only in the foreign settings object.
- The `contentPlayer == null` branches of the two progress providers cannot occur in the class, since the constructor always creates a content player. They are covered by `AdProgress` and `ContentProgress`, which take optional inputs.
- `onVideoSizeChanged`: neither listener reacts to it, and it carries a floating-point aspect ratio.
- Null URLs, formats and listeners passed to the Java code: the model's values are never null.
- Positions and durations are unbounded integers rather than Java `long`.
