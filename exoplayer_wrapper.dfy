/**
 * The playback-state reporter of exoplayerextensions/ExoplayerWrapper.java.
 *
 * The wrapped engine is reduced to what this class reads and writes: its play-when-ready
 * flag, its playback state, its position and duration, and a log of the commands sent to it
 * (its own registration of this class as the engine's listener is not recorded).
 * Listener callbacks are recorded as an append-only log of (listener, event) deliveries.
 * The engine's own asynchronous progress is driven from outside through SetEngineState
 * and SetEngineProgress, which stand for the engine and are not code of this class.
 */
module Exoplayer {
  import opened Fanout
  import opened Registry
  import Video

  /** The engine's playback-state codes (integers, as the engine reports them). */
  const STATE_IDLE: int := 1
  const STATE_BUFFERING: int := 2
  const STATE_READY: int := 3
  const STATE_ENDED: int := 4

  /** The duration reported while the engine does not know it yet. */
  const DURATION_UNKNOWN: int := -1

  /** The identity of a registered PlaybackListener. */
  type ListenerId = nat

  /** The PlaybackListener callbacks this class makes (size changes are never forwarded by it). */
  datatype PlaybackEvent =
    | StateChanged(playWhenReady: bool, playbackState: int)
    | Error(cause: nat)

  /** Calls this class makes on the engine. */
  datatype EngineCall =
    | PrepareSource(source: Video.MediaSource)
    | SeekEngineTo(positionMs: int)
    | SetPlayWhenReady(playWhenReady: bool)
    | ReleaseEngine

  class ExoplayerWrapper {
    // The engine's state.
    var playWhenReady: bool
    var playbackState: int
    var position: int
    var duration: int
    var engineCalls: seq<EngineCall>

    // This class's own state.
    var listeners: seq<ListenerId>
    var lastReportedPlayWhenReady: bool
    var lastReportedPlaybackState: int

    /** Every listener callback made so far, in order. */
    var log: seq<Delivery<ListenerId, PlaybackEvent>>

    /**
     * Construction. The engine starts idle and not playing. `onRenderers()` runs before the
     * listener list exists, so its report is skipped by the null check and leaves the last
     * reported pair at Java's defaults; the state is then set to STATE_IDLE.
     */
    constructor ()
      ensures !playWhenReady && playbackState == STATE_IDLE
      ensures position == 0 && duration == DURATION_UNKNOWN && engineCalls == []
      ensures listeners == [] && log == []
      ensures !lastReportedPlayWhenReady && lastReportedPlaybackState == STATE_IDLE
    {
      playWhenReady, playbackState := false, STATE_IDLE;
      position, duration := 0, DURATION_UNKNOWN;
      engineCalls := [];
      lastReportedPlayWhenReady, lastReportedPlaybackState := false, 0;
      log := [];
      // onRenderers(): maybeReportPlayerState() finds playbackListeners == null and does nothing.
      listeners := [];
      lastReportedPlaybackState := STATE_IDLE;
    }

    /** `loadVideo`: hands the engine the source built from the video. */
    method LoadVideo(video: Video.Video)
      modifies this`engineCalls
      ensures engineCalls == old(engineCalls) + [PrepareSource(video.ToMediaSource())]
    {
      engineCalls := engineCalls + [PrepareSource(video.ToMediaSource())];
    }

    /** `addListener`: appends; a listener may be registered more than once. */
    method AddListener(listener: ListenerId)
      modifies this`listeners
      ensures listeners == old(listeners) + [listener]
    {
      listeners := listeners + [listener];
    }

    /** `removeListener`: drops the first registration of the listener, if any. */
    method RemoveListener(listener: ListenerId)
      modifies this`listeners
      ensures listeners == RemoveFirst(old(listeners), listener)
    {
      listeners := RemoveFirst(listeners, listener);
    }

    /** Delivers `e` to every registered listener, in registration order. */
    method NotifyListeners(e: PlaybackEvent)
      modifies this`log
      ensures log == old(log) + Broadcast(listeners, e)
    {
      for i := 0 to |listeners|
        invariant log == old(log) + Broadcast(listeners[..i], e)
      {
        assert listeners[..i + 1] == listeners[..i] + [listeners[i]];
        BroadcastAppend(listeners[..i], [listeners[i]], e);
        log := log + [Delivery(listeners[i], e)];
      }
      assert listeners[..|listeners|] == listeners;
    }

    /**
     * `maybeReportPlayerState`: reads the engine's pair and, only if it differs from the
     * last reported pair, tells every listener and records it as the last reported pair.
     */
    method MaybeReportPlayerState()
      modifies this`log, this`lastReportedPlayWhenReady, this`lastReportedPlaybackState
      ensures lastReportedPlayWhenReady == playWhenReady
      ensures lastReportedPlaybackState == playbackState
      ensures log == old(log) + ReportDeliveries(
        (old(lastReportedPlayWhenReady), old(lastReportedPlaybackState)), (playWhenReady, playbackState), listeners)
    {
      var pwr := playWhenReady;
      var state := GetPlaybackState();
      if lastReportedPlayWhenReady != pwr || lastReportedPlaybackState != state {
        NotifyListeners(StateChanged(pwr, state));
        lastReportedPlayWhenReady := pwr;
        lastReportedPlaybackState := state;
      }
    }

    /**
     * Two `maybeReportPlayerState` calls in a row with the engine left alone deliver what the
     * first one delivers: the second finds its pair already reported.
     */
    method ReportTwice()
      modifies this`log, this`lastReportedPlayWhenReady, this`lastReportedPlaybackState
      ensures log == old(log) + ReportDeliveries(
        (old(lastReportedPlayWhenReady), old(lastReportedPlaybackState)), (playWhenReady, playbackState), listeners)
    {
      MaybeReportPlayerState();
      MaybeReportPlayerState();
      ReportIsIdempotent((old(lastReportedPlayWhenReady), old(lastReportedPlaybackState)), (playWhenReady, playbackState), listeners);
    }

    /** `prepare`: reports the engine's pair if it changed. */
    method Prepare()
      modifies this`log, this`lastReportedPlayWhenReady, this`lastReportedPlaybackState
      ensures lastReportedPlayWhenReady == playWhenReady
      ensures lastReportedPlaybackState == playbackState
      ensures log == old(log) + ReportDeliveries(
        (old(lastReportedPlayWhenReady), old(lastReportedPlaybackState)), (playWhenReady, playbackState), listeners)
    {
      MaybeReportPlayerState();
    }

    /**
     * `onPlayerStateChanged`: the engine's notification. The arguments are ignored; the
     * pair is read back from the engine.
     */
    method OnPlayerStateChanged(playWhenReadyArg: bool, stateArg: int)
      modifies this`log, this`lastReportedPlayWhenReady, this`lastReportedPlaybackState
      ensures lastReportedPlayWhenReady == playWhenReady
      ensures lastReportedPlaybackState == playbackState
      ensures log == old(log) + ReportDeliveries(
        (old(lastReportedPlayWhenReady), old(lastReportedPlaybackState)), (playWhenReady, playbackState), listeners)
    {
      MaybeReportPlayerState();
    }

    /** `onPlayerError`: the error goes to every listener; nothing else changes. */
    method OnPlayerError(cause: nat)
      modifies this`log
      ensures log == old(log) + Broadcast(listeners, Error(cause))
    {
      NotifyListeners(Error(cause));
    }

    /** `seekTo`: forwarded to the engine. */
    method SeekTo(positionMs: int)
      modifies this`engineCalls
      ensures engineCalls == old(engineCalls) + [SeekEngineTo(positionMs)]
    {
      engineCalls := engineCalls + [SeekEngineTo(positionMs)];
    }

    /**
     * `play`: sets play-when-ready and tells every listener (true, current state) whether or
     * not that pair was reported before; the last reported pair is not updated.
     */
    method Play()
      modifies this`playWhenReady, this`engineCalls, this`log
      ensures playWhenReady
      ensures engineCalls == old(engineCalls) + [SetPlayWhenReady(true)]
      ensures log == old(log) + Broadcast(listeners, StateChanged(true, playbackState))
    {
      playWhenReady := true;
      engineCalls := engineCalls + [SetPlayWhenReady(true)];
      var state := GetPlaybackState();
      NotifyListeners(StateChanged(true, state));
    }

    /** `pause`: the mirror image of Play. */
    method Pause()
      modifies this`playWhenReady, this`engineCalls, this`log
      ensures !playWhenReady
      ensures engineCalls == old(engineCalls) + [SetPlayWhenReady(false)]
      ensures log == old(log) + Broadcast(listeners, StateChanged(false, playbackState))
    {
      playWhenReady := false;
      engineCalls := engineCalls + [SetPlayWhenReady(false)];
      var state := GetPlaybackState();
      NotifyListeners(StateChanged(false, state));
    }

    /** `release`: forwarded to the engine, with no guard against a second call. */
    method Release()
      modifies this`engineCalls
      ensures engineCalls == old(engineCalls) + [ReleaseEngine]
    {
      engineCalls := engineCalls + [ReleaseEngine];
    }

    /** `getPlaybackState`: the engine's state. */
    method GetPlaybackState() returns (state: int)
      ensures state == playbackState
    {
      state := playbackState;
    }

    /** `getCurrentPosition`: the engine's position. */
    method GetCurrentPosition() returns (positionMs: int)
      ensures positionMs == position
    {
      positionMs := position;
    }

    /** `getDuration`: the engine's duration. */
    method GetDuration() returns (durationMs: int)
      ensures durationMs == duration
    {
      durationMs := duration;
    }

    /** The engine moves to another playback state on its own (not code of this class). */
    method SetEngineState(state: int)
      modifies this`playbackState
      ensures playbackState == state
    {
      playbackState := state;
    }

    /** The engine's position and duration advance on their own (not code of this class). */
    method SetEngineProgress(positionMs: int, durationMs: int)
      modifies this`position, this`duration
      ensures position == positionMs && duration == durationMs
    {
      position, duration := positionMs, durationMs;
    }
  }

  /**
   * The suppression rule: what a report delivers, given the last reported
   * (playWhenReady, playbackState) pair and the engine's current pair.
   */
  function ReportDeliveries(lastReported: (bool, int), current: (bool, int), listeners: seq<ListenerId>)
    : (r: seq<Delivery<ListenerId, PlaybackEvent>>)
    ensures r == [] <==> lastReported == current || listeners == []
    ensures r != [] ==> r == Broadcast(listeners, StateChanged(current.0, current.1))
  {
    if lastReported != current then Broadcast(listeners, StateChanged(current.0, current.1)) else []
  }

  /**
   * Reporting is idempotent: once a pair has been reported it is the last reported pair, and
   * a further report of the same engine state delivers nothing, so two reports in a row
   * deliver exactly what the first one did.
   */
  lemma ReportIsIdempotent(lastReported: (bool, int), current: (bool, int), listeners: seq<ListenerId>)
    ensures ReportDeliveries(current, current, listeners) == []
    ensures ReportDeliveries(lastReported, current, listeners) + ReportDeliveries(current, current, listeners)
      == ReportDeliveries(lastReported, current, listeners)
  {
  }
}
