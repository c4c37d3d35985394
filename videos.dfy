/** The video record shared by the gallery's components, and the bounds-checked
    lookup the focused carousel uses to decide which surfaces exist. */
module Videos {

  /** JavaScript's `null` for a value that may be missing. */
  datatype Option<T> = None | Some(value: T)

  /** Video ids are used as keys of a JavaScript object, so they are strings. */
  type VideoId = string

  /** One entry of the list fetched from the video API. The `likes` field may be
      missing from a response, hence the option. */
  datatype Video = Video(id: VideoId, previewUrl: string, fullUrl: string, likes: Option<int>)

  /** `video.likes || 0`: a missing count reads as zero. */
  function BaseLikes(v: Video): int
  {
    match v.likes
    case Some(n) => n
    case None => 0
  }

  /** `getVideo(index)`: the video at `index`, or `null` when `index` is outside the list. */
  function GetVideo(videos: seq<Video>, index: int): Option<Video>
  {
    if 0 <= index < |videos| then Some(videos[index]) else None
  }

  /** The lookup finds a video exactly at the positions of the list, and it is the one stored there. */
  lemma GetVideoInBounds(videos: seq<Video>, index: int)
    ensures GetVideo(videos, index).Some? <==> 0 <= index < |videos|
    ensures GetVideo(videos, index).Some? ==> GetVideo(videos, index).value == videos[index]
  {
  }
}
