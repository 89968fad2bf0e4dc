/**
 * The playback session of layeredvideo/SimpleVideoPlayer.java: one ExoplayerWrapper bound
 * to one surface. Construction loads, prepares and seeks, in that order; show/hide only
 * flip the surface's media-overlay flag; everything else is forwarded to the wrapper.
 */
module LayeredVideo {
  import opened Fanout
  import opened Exoplayer
  import Video

  class SimpleVideoPlayer {
    const exoPlayer: ExoplayerWrapper

    /** Whether the container's video surface is a SurfaceView (the only kind show/hide act on). */
    const surfaceIsSurfaceView: bool

    /** Stored by the constructor and never read. */
    var autoplay: bool

    /** The SurfaceView's z-order media-overlay flag. */
    var mediaOverlay: bool

    /** The four-argument constructor: the five-argument one with start position 0. */
    constructor (video: Video.Video, autoplay: bool, surfaceIsSurfaceView: bool)
      ensures fresh(exoPlayer)
      ensures this.autoplay == autoplay && this.surfaceIsSurfaceView == surfaceIsSurfaceView
      ensures !mediaOverlay
      ensures exoPlayer.engineCalls == [PrepareSource(video.ToMediaSource()), SeekEngineTo(0)]
      ensures !exoPlayer.playWhenReady && exoPlayer.playbackState == STATE_IDLE
      ensures exoPlayer.position == 0 && exoPlayer.duration == DURATION_UNKNOWN
      ensures exoPlayer.listeners == [] && exoPlayer.log == []
      ensures !exoPlayer.lastReportedPlayWhenReady && exoPlayer.lastReportedPlaybackState == STATE_IDLE
    {
      var wrapper := new ExoplayerWrapper();
      wrapper.LoadVideo(video);
      wrapper.Prepare();
      wrapper.SeekTo(0);
      this.autoplay := autoplay;
      this.surfaceIsSurfaceView := surfaceIsSurfaceView;
      mediaOverlay := false;
      exoPlayer := wrapper;
    }

    /**
     * The five-argument constructor: creates the wrapper, loads the video, prepares, and
     * seeks to the start position; `autoplay` is stored but no play is issued.
     */
    constructor WithStartPosition(video: Video.Video, autoplay: bool, surfaceIsSurfaceView: bool, startPositionMs: int)
      ensures fresh(exoPlayer)
      ensures this.autoplay == autoplay && this.surfaceIsSurfaceView == surfaceIsSurfaceView
      ensures !mediaOverlay
      ensures exoPlayer.engineCalls == [PrepareSource(video.ToMediaSource()), SeekEngineTo(startPositionMs)]
      ensures !exoPlayer.playWhenReady && exoPlayer.playbackState == STATE_IDLE
      ensures exoPlayer.position == 0 && exoPlayer.duration == DURATION_UNKNOWN
      ensures exoPlayer.listeners == [] && exoPlayer.log == []
      ensures !exoPlayer.lastReportedPlayWhenReady && exoPlayer.lastReportedPlaybackState == STATE_IDLE
    {
      var wrapper := new ExoplayerWrapper();
      wrapper.LoadVideo(video);
      wrapper.Prepare();
      wrapper.SeekTo(startPositionMs);
      this.autoplay := autoplay;
      this.surfaceIsSurfaceView := surfaceIsSurfaceView;
      mediaOverlay := false;
      exoPlayer := wrapper;
    }

    /** `addPlaybackListener`: forwarded to the wrapper. */
    method AddPlaybackListener(listener: ListenerId)
      modifies exoPlayer`listeners
      ensures exoPlayer.listeners == old(exoPlayer.listeners) + [listener]
    {
      exoPlayer.AddListener(listener);
    }

    /** `getCurrentPosition`: the wrapper's value, unchanged. */
    method GetCurrentPosition() returns (positionMs: int)
      ensures positionMs == exoPlayer.position
    {
      positionMs := exoPlayer.GetCurrentPosition();
    }

    /** `getDuration`: the wrapper's value, unchanged (DURATION_UNKNOWN while unknown). */
    method GetDuration() returns (durationMs: int)
      ensures durationMs == exoPlayer.duration
    {
      durationMs := exoPlayer.GetDuration();
    }

    /** `hide`: clears the overlay flag of a SurfaceView surface; transport is untouched. */
    method Hide()
      modifies this`mediaOverlay
      ensures surfaceIsSurfaceView ==> !mediaOverlay
      ensures !surfaceIsSurfaceView ==> mediaOverlay == old(mediaOverlay)
      ensures unchanged(exoPlayer)
    {
      if surfaceIsSurfaceView {
        mediaOverlay := false;
      }
    }

    /** `show`: sets the overlay flag of a SurfaceView surface; transport is untouched. */
    method Show()
      modifies this`mediaOverlay
      ensures surfaceIsSurfaceView ==> mediaOverlay
      ensures !surfaceIsSurfaceView ==> mediaOverlay == old(mediaOverlay)
      ensures unchanged(exoPlayer)
    {
      if surfaceIsSurfaceView {
        mediaOverlay := true;
      }
    }

    /** `pause`: exactly one wrapper pause. */
    method Pause()
      modifies exoPlayer`playWhenReady, exoPlayer`engineCalls, exoPlayer`log
      ensures !exoPlayer.playWhenReady
      ensures exoPlayer.engineCalls == old(exoPlayer.engineCalls) + [SetPlayWhenReady(false)]
      ensures exoPlayer.log ==
        old(exoPlayer.log) + Broadcast(exoPlayer.listeners, StateChanged(false, exoPlayer.playbackState))
    {
      exoPlayer.Pause();
    }

    /** `play`: exactly one wrapper play. */
    method Play()
      modifies exoPlayer`playWhenReady, exoPlayer`engineCalls, exoPlayer`log
      ensures exoPlayer.playWhenReady
      ensures exoPlayer.engineCalls == old(exoPlayer.engineCalls) + [SetPlayWhenReady(true)]
      ensures exoPlayer.log ==
        old(exoPlayer.log) + Broadcast(exoPlayer.listeners, StateChanged(true, exoPlayer.playbackState))
    {
      exoPlayer.Play();
    }

    /** `release`: exactly one wrapper release per call; a second call releases again. */
    method Release()
      modifies exoPlayer`engineCalls
      ensures exoPlayer.engineCalls == old(exoPlayer.engineCalls) + [ReleaseEngine]
    {
      exoPlayer.Release();
    }
  }
}
