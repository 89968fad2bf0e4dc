/**
 * The dual-player coordinator of demo/adplayer/ImaPlayer.java: one long-lived content
 * player, at most one ad player, a registry of ad-lifecycle callbacks, and the ordered
 * child views of the host container.
 *
 * The ads SDK is foreign: the calls made to it are recorded in `sdkCalls`, and its
 * callbacks into this class (ad events, ad errors, the VideoAdPlayer requests) are methods
 * here. A wrapper delivers a state change synchronously to its listeners; the content
 * wrapper's only listener is contentPlaybackListener and the ad wrapper's only listener is
 * adPlaybackListener, so after each play or pause this class runs that listener's body.
 */
module AdPlayer {
  import opened Maybe
  import opened Fanout
  import opened Registry
  import Video
  import opened Exoplayer
  import opened LayeredVideo

  /** contentPlaybackListener and adPlaybackListener, as registered with the wrappers. */
  const CONTENT_LISTENER: ListenerId := 0
  const AD_LISTENER: ListenerId := 1

  /**
   * A child view of the host container: views the host put there itself, the content
   * player's view, the ad UI container, and the view of the n-th ad player created.
   */
  datatype View = Foreign(id: nat) | ContentView | AdUi | AdView(serial: nat)

  /** The identity of a registered VideoAdPlayerCallback. */
  type CallbackId = nat

  /** The VideoAdPlayerCallback notifications this class sends. */
  datatype AdCallback = OnPlay | OnPause | OnResume | OnEnded

  /** The ad event types this class distinguishes; every other type is `OtherAdEvent`. */
  datatype AdEventType = Loaded | ContentPauseRequested | ContentResumeRequested | OtherAdEvent(name: string)

  /**
   * Calls made to the ads SDK: the ads loader's creation through the SDK factory, and the
   * calls on the ads loader and the ads manager, except the listener registrations on the
   * ads manager. Calls on the settings object are not recorded.
   */
  datatype SdkCall =
    | CreateAdsLoader
    | AddAdErrorListener
    | AddAdsLoadedListener
    | RequestAds(adTagUrl: string)
    | ContentComplete
    | InitAdsManager
    | StartAdsManager
    | DestroyAdsManager
    | RemoveAdsLoadedListener

  /** A position and duration read from one player. */
  datatype Progress = Progress(positionMs: int, durationMs: int)

  /** A VideoProgressUpdate: VIDEO_TIME_NOT_READY, or a position and duration. */
  datatype ProgressUpdate = NotReady | Update(progress: Progress)

  /**
   * `getAdProgress`: not ready only when neither player exists; otherwise the ad player's
   * progress whenever there is one, and the content player's progress when there is not.
   */
  function AdProgress(ad: Option<Progress>, content: Option<Progress>): (r: ProgressUpdate)
    ensures r == NotReady <==> ad == None && content == None
    ensures ad.Some? ==> r == Update(ad.value)
    ensures ad == None && content.Some? ==> r == Update(content.value)
  {
    if ad == None && content == None then NotReady
    else if ad.Some? then Update(ad.value)
    else Update(content.value)
  }

  /**
   * `getContentProgress`: not ready while an ad player exists, when there is no content
   * player, or when the content duration is not positive; otherwise the content progress.
   */
  function ContentProgress(adPresent: bool, content: Option<Progress>): (r: ProgressUpdate)
    ensures r == NotReady <==> adPresent || content == None || content.value.durationMs <= 0
    ensures r.Update? ==> content == Some(r.progress)
  {
    if adPresent || content == None || content.value.durationMs <= 0 then NotReady
    else Update(content.value)
  }

  /**
   * The two progress providers never disagree: whenever content progress is reported, the
   * ad-progress provider reports the same thing, and while an ad player exists only the ad
   * player's progress is reported at all.
   */
  lemma ProgressProvidersAgree(ad: Option<Progress>, content: Option<Progress>)
    ensures ContentProgress(ad.Some?, content).Update? ==> AdProgress(ad, content) == ContentProgress(ad.Some?, content)
    ensures ad.Some? ==> ContentProgress(ad.Some?, content) == NotReady && AdProgress(ad, content) == Update(ad.value)
  {
  }

  /** What contentPlaybackListener asks of the ads loader when told about `playbackState`. */
  function ContentListenerCalls(playbackState: int): seq<SdkCall> {
    if playbackState == STATE_ENDED then [ContentComplete] else []
  }

  /** What adPlaybackListener sends to the callbacks when told about `playbackState`. */
  function AdListenerCallbacks(callbacks: seq<CallbackId>, playbackState: int): seq<Delivery<CallbackId, AdCallback>> {
    if playbackState == STATE_ENDED then Broadcast(callbacks, OnEnded) else []
  }

  /** The container's children after `destroyAdPlayer` removes the ad player's view (if any) and the ad UI container. */
  function WithoutAdViews(children: seq<View>, adView: Option<View>): seq<View> {
    RemoveFirst(if adView.Some? then RemoveFirst(children, adView.value) else children, AdUi)
  }

  /** In a container without repeated views, destroyAdPlayer leaves exactly the other views, still unrepeated. */
  lemma WithoutAdViewsContents(children: seq<View>, adView: Option<View>)
    requires Distinct(children)
    ensures Distinct(WithoutAdViews(children, adView))
    ensures forall v :: v in WithoutAdViews(children, adView) <==> v in children && v != AdUi && Some(v) != adView
  {
    var rest := if adView.Some? then RemoveFirst(children, adView.value) else children;
    if adView.Some? {
      RemoveFirstDistinct(children, adView.value);
    }
    RemoveFirstDistinct(rest, AdUi);
  }

  /**
   * The children after `createAdPlayer`: the old ad views removed, then the new ad view and
   * the ad UI container on top, in that order.
   */
  function AdLayout(children: seq<View>, oldAdView: Option<View>, newAdView: View): (r: seq<View>)
    requires Distinct(children) && newAdView !in children && newAdView != AdUi
    ensures Distinct(r)
    ensures |r| >= 2 && r[|r| - 1] == AdUi && r[|r| - 2] == newAdView
    ensures forall v :: v in r <==> v == newAdView || v == AdUi || (v in children && Some(v) != oldAdView)
  {
    WithoutAdViewsContents(children, oldAdView);
    var base := WithoutAdViews(children, oldAdView);
    DistinctAppend(base, newAdView);
    DistinctAppend(base + [newAdView], AdUi);
    assert base + [newAdView] + [AdUi] == base + [newAdView, AdUi];
    base + [newAdView, AdUi]
  }

  /**
   * A container whose only ad view is `oldAdView`, numbered below `created`, does not hold
   * the next ad view, and laying out that view puts it and the ad UI container on top of
   * what destroyAdPlayer leaves.
   */
  lemma NewAdViewIsFresh(children: seq<View>, oldAdView: Option<View>, created: nat)
    requires Distinct(children)
    requires forall v :: v in children && v.AdView? ==> oldAdView == Some(v)
    requires oldAdView.Some? ==> oldAdView.value.AdView? && oldAdView.value.serial < created
    ensures AdView(created) !in children
    ensures AdLayout(children, oldAdView, AdView(created)) == WithoutAdViews(children, oldAdView) + [AdView(created), AdUi]
  {
  }

  /**
   * The ad player `createAdPlayer` builds: an autoplaying player for `url` as MP4 on a
   * SurfaceView, prepared and seeked to 0 but not yet playing, with adPlaybackListener as its
   * only listener.
   */
  method NewAdPlayer(url: string) returns (player: SimpleVideoPlayer)
    ensures fresh(player) && fresh(player.exoPlayer)
    ensures player.autoplay && player.surfaceIsSurfaceView && !player.mediaOverlay
    ensures player.exoPlayer.engineCalls ==
      [PrepareSource(Video.NewVideo(url, Video.MP4).ToMediaSource()), SeekEngineTo(0)]
    ensures !player.exoPlayer.playWhenReady && player.exoPlayer.playbackState == STATE_IDLE
    ensures player.exoPlayer.position == 0 && player.exoPlayer.duration == DURATION_UNKNOWN
    ensures !player.exoPlayer.lastReportedPlayWhenReady && player.exoPlayer.lastReportedPlaybackState == STATE_IDLE
    ensures player.exoPlayer.listeners == [AD_LISTENER] && player.exoPlayer.log == []
  {
    var adVideo := Video.NewVideo(url, Video.MP4);
    player := new SimpleVideoPlayer.WithStartPosition(adVideo, true, true, 0);
    player.AddPlaybackListener(AD_LISTENER);
  }

  /**
   * The calls an ad player's engine has received once the ad for `url` is playing: the
   * `url` as an MP4 source, a seek to the start, and play.
   */
  function AdEngineCalls(url: string): (calls: seq<EngineCall>)
    ensures calls == [PrepareSource(Video.MediaSource(Video.Extractor, url)), SeekEngineTo(0), SetPlayWhenReady(true)]
  {
    [PrepareSource(Video.NewVideo(url, Video.MP4).ToMediaSource()), SeekEngineTo(0), SetPlayWhenReady(true)]
  }

  class ImaPlayer {
    /** The ad tag URL; `loadAd` overwrites it with the ad's media URI. */
    var adTagUrl: Option<string>

    const contentPlayer: SimpleVideoPlayer

    /** The content player's view visibility: VISIBLE (true) or GONE (false). */
    var contentVisible: bool

    var adPlayer: SimpleVideoPlayer?
    var adPlayerContainer: Option<View>

    /** How many ad player views have been created; gives each new one its identity. */
    var adViewsCreated: nat

    /** The container's child views, bottom to top. */
    var children: seq<View>

    var callbacks: seq<CallbackId>

    /** Every VideoAdPlayerCallback notification sent so far, in order. */
    var callbackLog: seq<Delivery<CallbackId, AdCallback>>

    /** Whether `adsManager` is non-null. */
    var hasAdsManager: bool

    /** The calls `SdkCall` records, in order, from the ads loader's creation on. */
    var sdkCalls: seq<SdkCall>

    /** The ad player's wrapper, as a frame: empty when there is no ad player. */
    ghost function AdEngine(): set<ExoplayerWrapper>
      reads this`adPlayer
    {
      if adPlayer == null then {} else {adPlayer.exoPlayer}
    }

    /** The content player draws on a SurfaceView and its wrapper's only listener is contentPlaybackListener. */
    ghost predicate ContentWired()
      reads contentPlayer.exoPlayer`listeners
    {
      contentPlayer.surfaceIsSurfaceView &&
      contentPlayer.exoPlayer.listeners == [CONTENT_LISTENER]
    }

    /**
     * An ad player is a second player, on a SurfaceView, whose wrapper's only listener is
     * adPlaybackListener, and it always has a view.
     */
    ghost predicate AdWired()
      reads this`adPlayer, this`adPlayerContainer, AdEngine()`listeners
    {
      adPlayer != null ==>
        adPlayer != contentPlayer && adPlayer.exoPlayer != contentPlayer.exoPlayer &&
        adPlayer.surfaceIsSurfaceView &&
        adPlayer.exoPlayer.listeners == [AD_LISTENER] &&
        adPlayerContainer.Some?
    }

    /**
     * No view is in the container twice and the content view is there; the only ad player
     * view in the container is the current one; and while it is set, it sits directly under
     * the ad UI container, which is on top.
     */
    ghost predicate ViewsValid()
      reads this`children, this`adPlayerContainer, this`adViewsCreated
    {
      Distinct(children) &&
      ContentView in children &&
      (forall v :: v in children && v.AdView? ==> adPlayerContainer == Some(v)) &&
      (adPlayerContainer.Some? ==>
        adPlayerContainer.value.AdView? && adPlayerContainer.value.serial < adViewsCreated &&
        |children| >= 2 && children[|children| - 2] == adPlayerContainer.value &&
        children[|children| - 1] == AdUi) &&
      (AdUi in children ==> children[|children| - 1] == AdUi)
    }

    ghost predicate Valid()
      reads this`adPlayer, this`adPlayerContainer, this`children, this`adViewsCreated
      reads contentPlayer.exoPlayer`listeners, AdEngine()`listeners
    {
      ContentWired() && AdWired() && ViewsValid()
    }

    /** The ad player's progress, if there is an ad player. */
    ghost function AdSample(): Option<Progress>
      reads this`adPlayer, AdEngine()`position, AdEngine()`duration
    {
      if adPlayer == null then None else Some(Progress(adPlayer.exoPlayer.position, adPlayer.exoPlayer.duration))
    }

    /** The content player's progress. */
    ghost function ContentSample(): Progress
      reads contentPlayer.exoPlayer`position, contentPlayer.exoPlayer`duration
    {
      Progress(contentPlayer.exoPlayer.position, contentPlayer.exoPlayer.duration)
    }

    /**
     * Construction: the content player's view is added to the container and made GONE, the
     * content player is built without autoplay, its listener registered and its surface
     * sent to the back, and the ad UI container is added on top.
     */
    constructor (existing: seq<View>, video: Video.Video, adTagUrl: Option<string>)
      requires Distinct(existing)
      requires forall v :: v in existing ==> v.Foreign?
      ensures Valid()
      ensures fresh(contentPlayer) && fresh(contentPlayer.exoPlayer)
      ensures this.adTagUrl == adTagUrl
      ensures children == existing + [ContentView, AdUi]
      ensures !contentVisible && !contentPlayer.mediaOverlay && !contentPlayer.autoplay
      ensures contentPlayer.exoPlayer.engineCalls == [PrepareSource(video.ToMediaSource()), SeekEngineTo(0)]
      ensures !contentPlayer.exoPlayer.playWhenReady && contentPlayer.exoPlayer.log == []
      ensures contentPlayer.exoPlayer.playbackState == STATE_IDLE
      ensures contentPlayer.exoPlayer.position == 0 && contentPlayer.exoPlayer.duration == DURATION_UNKNOWN
      ensures !contentPlayer.exoPlayer.lastReportedPlayWhenReady && contentPlayer.exoPlayer.lastReportedPlaybackState == STATE_IDLE
      ensures adPlayer == null && adPlayerContainer == None && adViewsCreated == 0
      ensures callbacks == [] && callbackLog == [] && !hasAdsManager
      ensures sdkCalls == [CreateAdsLoader, AddAdErrorListener, AddAdsLoadedListener]
    {
      this.adTagUrl := adTagUrl;
      sdkCalls := [CreateAdsLoader, AddAdErrorListener, AddAdsLoadedListener];
      callbacks := [];
      callbackLog := [];
      DistinctAppend(existing, ContentView);
      children := existing + [ContentView];
      contentVisible := false;
      var content := new SimpleVideoPlayer(video, false, true);
      content.AddPlaybackListener(CONTENT_LISTENER);
      content.Hide();
      contentPlayer := content;
      DistinctAppend(existing + [ContentView], AdUi);
      children := children + [AdUi];
      adPlayer := null;
      adPlayerContainer := None;
      adViewsCreated := 0;
      hasAdsManager := false;
    }

    /** Sends `e` to every registered callback, in registration order. */
    method NotifyCallbacks(e: AdCallback)
      modifies this`callbackLog
      ensures callbackLog == old(callbackLog) + Broadcast(callbacks, e)
    {
      for i := 0 to |callbacks|
        invariant callbackLog == old(callbackLog) + Broadcast(callbacks[..i], e)
      {
        assert callbacks[..i + 1] == callbacks[..i] + [callbacks[i]];
        BroadcastAppend(callbacks[..i], [callbacks[i]], e);
        callbackLog := callbackLog + [Delivery(callbacks[i], e)];
      }
      assert callbacks[..|callbacks|] == callbacks;
    }

    /** `contentPlaybackListener.onStateChanged`: content that has ended is reported to the ads loader. */
    method OnContentStateChanged(playWhenReady: bool, playbackState: int)
      modifies this`sdkCalls
      ensures sdkCalls == old(sdkCalls) + ContentListenerCalls(playbackState)
    {
      if playbackState == STATE_ENDED {
        sdkCalls := sdkCalls + [ContentComplete];
      }
    }

    /** `adPlaybackListener.onStateChanged`: an ad that has ended is reported to every callback. */
    method OnAdStateChanged(playWhenReady: bool, playbackState: int)
      modifies this`callbackLog
      ensures callbackLog == old(callbackLog) + AdListenerCallbacks(callbacks, playbackState)
    {
      if playbackState == STATE_ENDED {
        NotifyCallbacks(OnEnded);
      }
    }

    /** The effect of `destroyAdPlayer`, given the ad player it started with. */
    twostate predicate AdDestroyed(oldAd: SimpleVideoPlayer?)
      reads this`adPlayer, this`adPlayerContainer, this`children
      reads if oldAd == null then {} else {oldAd.exoPlayer}
    {
      adPlayer == null && adPlayerContainer == None &&
      children == WithoutAdViews(old(children), old(adPlayerContainer)) &&
      (forall v :: v in children <==> v in old(children) && !v.AdView? && v != AdUi) &&
      (oldAd != null ==> oldAd.exoPlayer.engineCalls == old(oldAd.exoPlayer.engineCalls) + [ReleaseEngine])
    }

    /**
     * `destroyAdPlayer`: removes the ad player's view and the ad UI container from the
     * container, releases the ad player if there is one, and forgets both.
     */
    method DestroyAdPlayer()
      requires Valid()
      modifies this`adPlayer, this`adPlayerContainer, this`children, AdEngine()`engineCalls
      ensures Valid()
      ensures AdDestroyed(old(adPlayer))
    {
      ghost var oldChildren := children;
      if adPlayerContainer.Some? {
        children := RemoveFirst(children, adPlayerContainer.value);
      }
      children := RemoveFirst(children, AdUi);
      WithoutAdViewsContents(oldChildren, adPlayerContainer);
      if adPlayer != null {
        adPlayer.Release();
      }
      adPlayerContainer := None;
      adPlayer := null;
    }

    /** The effect of `hideContentPlayer` on the content player, its view and the ads loader. */
    twostate predicate ContentHidden()
      reads this`contentVisible, this`sdkCalls, contentPlayer`mediaOverlay
      reads contentPlayer.exoPlayer`playWhenReady, contentPlayer.exoPlayer`playbackState
      reads contentPlayer.exoPlayer`engineCalls, contentPlayer.exoPlayer`log
    {
      var engine := contentPlayer.exoPlayer;
      !contentVisible && !contentPlayer.mediaOverlay && !engine.playWhenReady &&
      engine.engineCalls == old(engine.engineCalls) + [SetPlayWhenReady(false)] &&
      engine.log == old(engine.log) + [Delivery(CONTENT_LISTENER, StateChanged(false, engine.playbackState))] &&
      sdkCalls == old(sdkCalls) + ContentListenerCalls(engine.playbackState)
    }

    /** `hideContentPlayer`: pauses the content player, sends its surface back and makes its view GONE. */
    method HideContentPlayer()
      requires Valid()
      modifies this`contentVisible, this`sdkCalls, contentPlayer`mediaOverlay
      modifies contentPlayer.exoPlayer`playWhenReady, contentPlayer.exoPlayer`engineCalls, contentPlayer.exoPlayer`log
      ensures Valid()
      ensures ContentHidden()
    {
      contentPlayer.Pause();
      OnContentStateChanged(false, contentPlayer.exoPlayer.playbackState);
      contentPlayer.Hide();
      contentVisible := false;
    }

    /** The effect of `showContentPlayer` on the content player, its view and the ads loader. */
    twostate predicate ContentShown()
      reads this`contentVisible, this`sdkCalls
      reads contentPlayer.exoPlayer`playWhenReady, contentPlayer.exoPlayer`playbackState
      reads contentPlayer.exoPlayer`engineCalls, contentPlayer.exoPlayer`log
    {
      var engine := contentPlayer.exoPlayer;
      contentVisible && engine.playWhenReady &&
      engine.engineCalls == old(engine.engineCalls) + [SetPlayWhenReady(true)] &&
      engine.log == old(engine.log) + [Delivery(CONTENT_LISTENER, StateChanged(true, engine.playbackState))] &&
      sdkCalls == old(sdkCalls) + ContentListenerCalls(engine.playbackState)
    }

    /** `showContentPlayer`: makes the content view VISIBLE and plays the content. */
    method ShowContentPlayer()
      requires Valid()
      modifies this`contentVisible, this`sdkCalls
      modifies contentPlayer.exoPlayer`playWhenReady, contentPlayer.exoPlayer`engineCalls, contentPlayer.exoPlayer`log
      ensures Valid()
      ensures ContentShown()
    {
      contentVisible := true;
      contentPlayer.Play();
      OnContentStateChanged(true, contentPlayer.exoPlayer.playbackState);
    }

    /**
     * The view half of `createAdPlayer`, once the old ad player is gone: a new ad player view
     * is added on top, and the ad UI container is removed and added again so that it is the
     * topmost view.
     */
    method PlaceAdView()
      requires Valid() && adPlayer == null && adPlayerContainer == None
      requires AdUi !in children
      modifies this`adViewsCreated, this`adPlayerContainer, this`children
      ensures Valid()
      ensures adPlayerContainer == Some(AdView(old(adViewsCreated))) && adViewsCreated == old(adViewsCreated) + 1
      ensures children == old(children) + [AdView(old(adViewsCreated)), AdUi]
    {
      var view := AdView(adViewsCreated);
      assert view !in children;
      adViewsCreated := adViewsCreated + 1;
      adPlayerContainer := Some(view);
      DistinctAppend(children, view);
      children := children + [view];
      children := RemoveFirst(children, AdUi);
      DistinctAppend(children, AdUi);
      children := children + [AdUi];
    }

    /**
     * An ad player for `url` has been started from callback log `log0`: an autoplaying player
     * for `url` as MP4, prepared, seeked to 0 and playing, whose listener has had the one play
     * broadcast; the ad surface in front and the content surface behind; and onPlay sent to
     * every callback after `log0`.
     */
    ghost predicate AdStarted(url: string, log0: seq<Delivery<CallbackId, AdCallback>>)
      reads this`adPlayer, this`callbacks, this`callbackLog, contentPlayer`mediaOverlay
      reads if adPlayer == null then {} else {adPlayer, adPlayer.exoPlayer}
    {
      adPlayer != null &&
      adPlayer.autoplay && adPlayer.mediaOverlay && adPlayer.exoPlayer.playWhenReady &&
      adPlayer.exoPlayer.engineCalls == AdEngineCalls(url) &&
      adPlayer.exoPlayer.playbackState == STATE_IDLE &&
      adPlayer.exoPlayer.position == 0 && adPlayer.exoPlayer.duration == DURATION_UNKNOWN &&
      !adPlayer.exoPlayer.lastReportedPlayWhenReady && adPlayer.exoPlayer.lastReportedPlaybackState == STATE_IDLE &&
      adPlayer.exoPlayer.log == [Delivery(AD_LISTENER, StateChanged(true, STATE_IDLE))] &&
      !contentPlayer.mediaOverlay &&
      callbackLog == log0 + Broadcast(callbacks, OnPlay)
    }

    /**
     * The player half of `createAdPlayer`, once the new ad view is in place: an autoplaying
     * MP4 player for `url`, starting at 0, with the ad listener registered; the content
     * surface goes behind, the ad surface in front, the ad plays, and every callback is sent
     * onPlay.
     */
    method StartAdPlayer(url: string)
      requires Valid() && adPlayer == null && adPlayerContainer.Some?
      modifies this`adPlayer, this`callbackLog, contentPlayer`mediaOverlay
      ensures Valid()
      ensures AdStarted(url, old(callbackLog))
      ensures fresh(adPlayer) && fresh(adPlayer.exoPlayer)
    {
      var player := NewAdPlayer(url);
      adPlayer := player;
      contentPlayer.Hide();
      player.Show();
      player.Play();
      assert player.exoPlayer.playbackState == STATE_IDLE;
      OnAdStateChanged(true, player.exoPlayer.playbackState);
      assert callbackLog == old(callbackLog);
      NotifyCallbacks(OnPlay);
    }

    /**
     * `createAdPlayer`: destroys any ad player, adds a new ad view with the ad UI container
     * moved above it, builds an autoplaying MP4 player for the ad URL, puts the content
     * surface behind the ad surface, plays the ad and sends onPlay to every callback.
     */
    method CreateAdPlayer()
      requires Valid() && adTagUrl.Some?
      modifies this`adPlayer, this`adPlayerContainer, this`children, this`adViewsCreated, this`callbackLog
      modifies AdEngine()`engineCalls, contentPlayer`mediaOverlay
      ensures Valid()
      ensures AdStarted(adTagUrl.value, old(callbackLog))
      ensures fresh(adPlayer) && fresh(adPlayer.exoPlayer)
      ensures adPlayerContainer == Some(AdView(old(adViewsCreated))) && adViewsCreated == old(adViewsCreated) + 1
      ensures children == AdLayout(old(children), old(adPlayerContainer), AdView(old(adViewsCreated)))
      ensures old(adPlayer) != null ==>
        old(adPlayer).exoPlayer.engineCalls == old(adPlayer.exoPlayer.engineCalls) + [ReleaseEngine]
    {
      DestroyAdPlayer();
      PlaceAdView();
      ghost var log0 := callbackLog;
      StartAdPlayer(adTagUrl.value);
      assert log0 == old(callbackLog);
      NewAdViewIsFresh(old(children), old(adPlayerContainer), old(adViewsCreated));
    }

    /** `pauseContent`: hides the content player, then sends onPause to every callback. */
    method PauseContent()
      requires Valid()
      modifies this`contentVisible, this`sdkCalls, this`callbackLog, contentPlayer`mediaOverlay
      modifies contentPlayer.exoPlayer`playWhenReady, contentPlayer.exoPlayer`engineCalls, contentPlayer.exoPlayer`log
      ensures Valid()
      ensures ContentHidden()
      ensures callbackLog == old(callbackLog) + Broadcast(callbacks, OnPause)
    {
      HideContentPlayer();
      NotifyCallbacks(OnPause);
    }

    /** `resumeContent`: destroys the ad player, shows and plays the content, then sends onResume to every callback. */
    method ResumeContent()
      requires Valid()
      modifies this`adPlayer, this`adPlayerContainer, this`children, this`contentVisible, this`sdkCalls, this`callbackLog
      modifies AdEngine()`engineCalls
      modifies contentPlayer.exoPlayer`playWhenReady, contentPlayer.exoPlayer`engineCalls, contentPlayer.exoPlayer`log
      ensures Valid()
      ensures AdDestroyed(old(adPlayer))
      ensures ContentShown()
      ensures callbackLog == old(callbackLog) + Broadcast(callbacks, OnResume)
    {
      DestroyAdPlayer();
      ShowContentPlayer();
      NotifyCallbacks(OnResume);
    }

    /** `videoAdPlayer.playAd`: hides the content player. */
    method PlayAd()
      requires Valid()
      modifies this`contentVisible, this`sdkCalls, contentPlayer`mediaOverlay
      modifies contentPlayer.exoPlayer`playWhenReady, contentPlayer.exoPlayer`engineCalls, contentPlayer.exoPlayer`log
      ensures Valid()
      ensures ContentHidden()
    {
      HideContentPlayer();
    }

    /** `videoAdPlayer.loadAd`: stores the media URI as the ad tag URL and creates the ad player for it. */
    method LoadAd(mediaUri: string)
      requires Valid()
      modifies this`adTagUrl, this`adPlayer, this`adPlayerContainer, this`children, this`adViewsCreated, this`callbackLog
      modifies AdEngine()`engineCalls, contentPlayer`mediaOverlay
      ensures Valid()
      ensures adTagUrl == Some(mediaUri)
      ensures AdStarted(mediaUri, old(callbackLog))
      ensures fresh(adPlayer) && fresh(adPlayer.exoPlayer)
      ensures adPlayerContainer == Some(AdView(old(adViewsCreated)))
      ensures children == AdLayout(old(children), old(adPlayerContainer), AdView(old(adViewsCreated)))
      ensures old(adPlayer) != null ==>
        old(adPlayer).exoPlayer.engineCalls == old(adPlayer.exoPlayer.engineCalls) + [ReleaseEngine]
    {
      adTagUrl := Some(mediaUri);
      CreateAdPlayer();
    }

    /** `videoAdPlayer.stopAd`: destroys the ad player and shows the content again; no callbacks. */
    method StopAd()
      requires Valid()
      modifies this`adPlayer, this`adPlayerContainer, this`children, this`contentVisible, this`sdkCalls
      modifies AdEngine()`engineCalls
      modifies contentPlayer.exoPlayer`playWhenReady, contentPlayer.exoPlayer`engineCalls, contentPlayer.exoPlayer`log
      ensures Valid()
      ensures AdDestroyed(old(adPlayer))
      ensures ContentShown()
    {
      DestroyAdPlayer();
      ShowContentPlayer();
    }

    /** `videoAdPlayer.pauseAd`: pauses the ad player if there is one; otherwise nothing happens. */
    method PauseAd()
      requires Valid()
      modifies this`callbackLog, AdEngine()`playWhenReady, AdEngine()`engineCalls, AdEngine()`log
      ensures Valid()
      ensures adPlayer == null ==> callbackLog == old(callbackLog)
      ensures adPlayer != null ==>
        var engine := adPlayer.exoPlayer;
        !engine.playWhenReady &&
        engine.engineCalls == old(engine.engineCalls) + [SetPlayWhenReady(false)] &&
        engine.log == old(engine.log) + [Delivery(AD_LISTENER, StateChanged(false, engine.playbackState))] &&
        callbackLog == old(callbackLog) + AdListenerCallbacks(callbacks, engine.playbackState)
    {
      if adPlayer != null {
        adPlayer.Pause();
        OnAdStateChanged(false, adPlayer.exoPlayer.playbackState);
      }
    }

    /** `videoAdPlayer.resumeAd`: plays the ad player if there is one; otherwise nothing happens. */
    method ResumeAd()
      requires Valid()
      modifies this`callbackLog, AdEngine()`playWhenReady, AdEngine()`engineCalls, AdEngine()`log
      ensures Valid()
      ensures adPlayer == null ==> callbackLog == old(callbackLog)
      ensures adPlayer != null ==>
        var engine := adPlayer.exoPlayer;
        engine.playWhenReady &&
        engine.engineCalls == old(engine.engineCalls) + [SetPlayWhenReady(true)] &&
        engine.log == old(engine.log) + [Delivery(AD_LISTENER, StateChanged(true, engine.playbackState))] &&
        callbackLog == old(callbackLog) + AdListenerCallbacks(callbacks, engine.playbackState)
    {
      if adPlayer != null {
        adPlayer.Play();
        OnAdStateChanged(true, adPlayer.exoPlayer.playbackState);
      }
    }

    /** `videoAdPlayer.addCallback`: appends; duplicates allowed. */
    method AddCallback(callback: CallbackId)
      modifies this`callbacks
      ensures callbacks == old(callbacks) + [callback]
    {
      callbacks := callbacks + [callback];
    }

    /** `videoAdPlayer.removeCallback`: drops the first registration of the callback, if any. */
    method RemoveCallback(callback: CallbackId)
      modifies this`callbacks
      ensures callbacks == RemoveFirst(old(callbacks), callback)
    {
      callbacks := RemoveFirst(callbacks, callback);
    }

    /** `videoAdPlayer.getAdProgress`, over this player's state (its content player always exists). */
    method GetAdProgress() returns (r: ProgressUpdate)
      ensures r == AdProgress(AdSample(), Some(ContentSample()))
    {
      if adPlayer != null {
        var position := adPlayer.GetCurrentPosition();
        var duration := adPlayer.GetDuration();
        r := Update(Progress(position, duration));
      } else {
        var position := contentPlayer.GetCurrentPosition();
        var duration := contentPlayer.GetDuration();
        r := Update(Progress(position, duration));
      }
    }

    /** `contentProgressProvider.getContentProgress`, over this player's state. */
    method GetContentProgress() returns (r: ProgressUpdate)
      ensures r == ContentProgress(adPlayer != null, Some(ContentSample()))
    {
      var duration := contentPlayer.GetDuration();
      if adPlayer != null || duration <= 0 {
        r := NotReady;
      } else {
        var position := contentPlayer.GetCurrentPosition();
        r := Update(Progress(position, duration));
      }
    }

    /**
     * The content engine changes state on its own and calls the content wrapper's
     * `onPlayerStateChanged`; if the wrapper delivers a report, contentPlaybackListener (its
     * only listener) reacts to it.
     */
    method OnContentEngineStateChanged()
      requires Valid()
      modifies this`sdkCalls, contentPlayer.exoPlayer`log
      modifies contentPlayer.exoPlayer`lastReportedPlayWhenReady, contentPlayer.exoPlayer`lastReportedPlaybackState
      ensures Valid()
      ensures
        var engine := contentPlayer.exoPlayer;
        var changed := (old(engine.lastReportedPlayWhenReady), old(engine.lastReportedPlaybackState))
          != (engine.playWhenReady, engine.playbackState);
        engine.lastReportedPlayWhenReady == engine.playWhenReady &&
        engine.lastReportedPlaybackState == engine.playbackState &&
        engine.log == old(engine.log) + (if changed then [Delivery(CONTENT_LISTENER, StateChanged(engine.playWhenReady, engine.playbackState))] else []) &&
        sdkCalls == old(sdkCalls) + (if changed then ContentListenerCalls(engine.playbackState) else [])
    {
      var engine := contentPlayer.exoPlayer;
      var before := |engine.log|;
      engine.OnPlayerStateChanged(engine.playWhenReady, engine.playbackState);
      if |engine.log| > before {
        OnContentStateChanged(engine.playWhenReady, engine.playbackState);
      }
    }

    /**
     * The ad engine changes state on its own and calls the ad wrapper's
     * `onPlayerStateChanged`; if the wrapper delivers a report, adPlaybackListener (its only
     * listener) reacts to it. Without an ad player there is no ad engine and nothing happens.
     */
    method OnAdEngineStateChanged()
      requires Valid()
      modifies this`callbackLog, AdEngine()`log, AdEngine()`lastReportedPlayWhenReady, AdEngine()`lastReportedPlaybackState
      ensures Valid()
      ensures adPlayer == null ==> callbackLog == old(callbackLog)
      ensures adPlayer != null ==>
        var engine := adPlayer.exoPlayer;
        var changed := (old(engine.lastReportedPlayWhenReady), old(engine.lastReportedPlaybackState))
          != (engine.playWhenReady, engine.playbackState);
        engine.lastReportedPlayWhenReady == engine.playWhenReady &&
        engine.lastReportedPlaybackState == engine.playbackState &&
        engine.log == old(engine.log) + (if changed then [Delivery(AD_LISTENER, StateChanged(engine.playWhenReady, engine.playbackState))] else []) &&
        callbackLog == old(callbackLog) + (if changed then AdListenerCallbacks(callbacks, engine.playbackState) else [])
    {
      if adPlayer != null {
        var engine := adPlayer.exoPlayer;
        var before := |engine.log|;
        engine.OnPlayerStateChanged(engine.playWhenReady, engine.playbackState);
        if |engine.log| > before {
          OnAdStateChanged(engine.playWhenReady, engine.playbackState);
        }
      }
    }

    /** `AdListener.onAdError`: the error is logged and shown, and the content resumes. */
    method OnAdError()
      requires Valid()
      modifies this`adPlayer, this`adPlayerContainer, this`children, this`contentVisible, this`sdkCalls, this`callbackLog
      modifies AdEngine()`engineCalls
      modifies contentPlayer.exoPlayer`playWhenReady, contentPlayer.exoPlayer`engineCalls, contentPlayer.exoPlayer`log
      ensures Valid()
      ensures AdDestroyed(old(adPlayer))
      ensures ContentShown()
      ensures callbackLog == old(callbackLog) + Broadcast(callbacks, OnResume)
    {
      ResumeContent();
    }

    /**
     * `AdListener.onAdEvent`: LOADED starts the ads manager, CONTENT_PAUSE_REQUESTED pauses
     * the content, CONTENT_RESUME_REQUESTED resumes it, and every other event is ignored.
     * Ad events come from the ads manager, so one exists when LOADED arrives.
     */
    method OnAdEvent(event: AdEventType)
      requires Valid()
      requires event == Loaded ==> hasAdsManager
      modifies this`adPlayer, this`adPlayerContainer, this`children, this`contentVisible, this`sdkCalls, this`callbackLog
      modifies AdEngine()`engineCalls, contentPlayer`mediaOverlay
      modifies contentPlayer.exoPlayer`playWhenReady, contentPlayer.exoPlayer`engineCalls, contentPlayer.exoPlayer`log
      ensures Valid()
      ensures event == Loaded ==>
        sdkCalls == old(sdkCalls) + [StartAdsManager] &&
        unchanged(this`adPlayer, this`adPlayerContainer, this`children, this`contentVisible, this`callbackLog) &&
        unchanged(contentPlayer, contentPlayer.exoPlayer) && unchanged(AdEngine())
      ensures event == ContentPauseRequested ==>
        ContentHidden() && callbackLog == old(callbackLog) + Broadcast(callbacks, OnPause) &&
        unchanged(this`adPlayer, this`adPlayerContainer, this`children) && unchanged(AdEngine())
      ensures event == ContentResumeRequested ==>
        AdDestroyed(old(adPlayer)) && ContentShown() && callbackLog == old(callbackLog) + Broadcast(callbacks, OnResume) &&
        unchanged(contentPlayer)
      ensures event.OtherAdEvent? ==>
        unchanged(this) && unchanged(contentPlayer, contentPlayer.exoPlayer) && unchanged(AdEngine())
    {
      match event
      case Loaded =>
        sdkCalls := sdkCalls + [StartAdsManager];
      case ContentPauseRequested =>
        PauseContent();
      case ContentResumeRequested =>
        ResumeContent();
      case OtherAdEvent(_) =>
    }

    /** `AdListener.onAdsManagerLoaded`: keeps the ads manager and initialises it. */
    method OnAdsManagerLoaded()
      modifies this`hasAdsManager, this`sdkCalls
      ensures hasAdsManager
      ensures sdkCalls == old(sdkCalls) + [InitAdsManager]
    {
      hasAdsManager := true;
      sdkCalls := sdkCalls + [InitAdsManager];
    }

    /** `pause`: pauses the ad player if there is one, and always pauses the content player. */
    method Pause()
      requires Valid()
      modifies this`callbackLog, this`sdkCalls, AdEngine()`playWhenReady, AdEngine()`engineCalls, AdEngine()`log
      modifies contentPlayer.exoPlayer`playWhenReady, contentPlayer.exoPlayer`engineCalls, contentPlayer.exoPlayer`log
      ensures Valid()
      ensures adPlayer == null ==> callbackLog == old(callbackLog)
      ensures adPlayer != null ==>
        var engine := adPlayer.exoPlayer;
        !engine.playWhenReady &&
        engine.engineCalls == old(engine.engineCalls) + [SetPlayWhenReady(false)] &&
        engine.log == old(engine.log) + [Delivery(AD_LISTENER, StateChanged(false, engine.playbackState))] &&
        callbackLog == old(callbackLog) + AdListenerCallbacks(callbacks, engine.playbackState)
      ensures
        var engine := contentPlayer.exoPlayer;
        !engine.playWhenReady &&
        engine.engineCalls == old(engine.engineCalls) + [SetPlayWhenReady(false)] &&
        engine.log == old(engine.log) + [Delivery(CONTENT_LISTENER, StateChanged(false, engine.playbackState))] &&
        sdkCalls == old(sdkCalls) + ContentListenerCalls(engine.playbackState)
    {
      if adPlayer != null {
        adPlayer.Pause();
        OnAdStateChanged(false, adPlayer.exoPlayer.playbackState);
      }
      contentPlayer.Pause();
      OnContentStateChanged(false, contentPlayer.exoPlayer.playbackState);
    }

    /**
     * `play`: with an ad tag URL, only requests ads and leaves the content alone; without
     * one, shows and plays the content.
     */
    method Play()
      requires Valid()
      modifies this`contentVisible, this`sdkCalls
      modifies contentPlayer.exoPlayer`playWhenReady, contentPlayer.exoPlayer`engineCalls, contentPlayer.exoPlayer`log
      ensures Valid()
      ensures adTagUrl.Some? ==>
        sdkCalls == old(sdkCalls) + [RequestAds(adTagUrl.value)] &&
        contentVisible == old(contentVisible) && unchanged(contentPlayer.exoPlayer)
      ensures adTagUrl == None ==> ContentShown()
    {
      if adTagUrl.Some? {
        sdkCalls := sdkCalls + [RequestAds(adTagUrl.value)];
      } else {
        ShowContentPlayer();
      }
    }

    /**
     * `release`: releases and forgets the ad player, destroys and forgets the ads manager,
     * reports content completion, releases the content player and detaches from the loader.
     * The ad player's view stays in the container.
     */
    method Release()
      requires Valid()
      modifies this`adPlayer, this`hasAdsManager, this`sdkCalls, AdEngine()`engineCalls, contentPlayer.exoPlayer`engineCalls
      ensures Valid()
      ensures adPlayer == null && !hasAdsManager
      ensures sdkCalls == old(sdkCalls) + (if old(hasAdsManager) then [DestroyAdsManager] else []) +
        [ContentComplete, RemoveAdsLoadedListener]
      ensures contentPlayer.exoPlayer.engineCalls == old(contentPlayer.exoPlayer.engineCalls) + [ReleaseEngine]
      ensures old(adPlayer) != null ==>
        old(adPlayer).exoPlayer.engineCalls == old(adPlayer.exoPlayer.engineCalls) + [ReleaseEngine]
    {
      if adPlayer != null {
        adPlayer.Release();
        adPlayer := null;
      }
      if hasAdsManager {
        sdkCalls := sdkCalls + [DestroyAdsManager];
        hasAdsManager := false;
      }
      sdkCalls := sdkCalls + [ContentComplete];
      contentPlayer.Release();
      sdkCalls := sdkCalls + [RemoveAdsLoadedListener];
    }
  }
}
