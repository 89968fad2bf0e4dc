/**
 * The video descriptor of exoplayerextensions/Video.java: an immutable URL, format and
 * optional content id, and the choice of media-source kind the playback engine is given.
 * Building the engine's source objects is the engine's business; a built source is
 * modelled as its kind paired with the URL it was built from.
 */
module Video {
  import opened Maybe

  /** The formats the playback engine can play. */
  datatype VideoType = DASH | MP4 | HLS | OTHER

  /** The kind of media source the engine is handed. */
  datatype SourceKind = Dash | Hls | Extractor

  /** A media source: its kind and the URI it reads from. */
  datatype MediaSource = MediaSource(kind: SourceKind, uri: string)

  /**
   * A video. The three fields are final in Java and the getters `getUrl`, `getVideoType`
   * and `getContentId` return them: here they are the datatype's destructors, and a
   * value never changes after construction. A null content id is `None`.
   */
  datatype Video = Video(url: string, videoType: VideoType, contentId: Option<string>) {

    /** `toMediaSource`: one source kind per format, always built from this video's own URL. */
    function ToMediaSource(): (m: MediaSource)
      ensures m.uri == url
      ensures m.kind == Dash <==> videoType == DASH
      ensures m.kind == Hls <==> videoType == HLS
      ensures m.kind == Extractor <==> videoType == MP4 || videoType == OTHER
    {
      match videoType
      case DASH => MediaSource(Dash, url)
      case HLS => MediaSource(Hls, url)
      case _ => MediaSource(Extractor, url)
    }
  }

  /** The two-argument constructor: no content id; URL and format kept as given. */
  function NewVideo(url: string, videoType: VideoType): (v: Video)
    ensures v.contentId == None
    ensures v.url == url && v.videoType == videoType
  {
    Video(url, videoType, None)
  }

  /** Two descriptors with the same URL and format build the same source, whatever their content ids. */
  lemma SourceIgnoresContentId(v: Video, w: Video)
    requires v.url == w.url && v.videoType == w.videoType
    ensures v.ToMediaSource() == w.ToMediaSource()
  {
  }
}
