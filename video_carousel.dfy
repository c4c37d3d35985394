/** The focused carousel: a window of three surfaces (previous, centre, next)
    over a fixed list of videos, with navigation, playback flags and an
    optimistic like toggle. */
module VideoCarousel {
  import opened Videos

  /** What the like call settles to: a rejected request, or a response whose
      `success` flag is read. */
  datatype LikeResponse = Rejected | Responded(success: bool)

  /** The centre `<video>` element behind its ref: not attached yet, or attached
      with the element's own `paused` flag. */
  datatype MediaElement = Detached | Attached(paused: bool)

  /** The component's state fields (`progress` is left out). `likes` maps a
      video id to its `liked` flag. */
  datatype Session = Session(
    index: int,
    direction: int,
    muted: bool,
    paused: bool,
    loading: bool,
    likes: map<VideoId, bool>,
    sharing: bool)

  /** The state right after mounting with `initialIndex`. */
  function Initial(initialIndex: int): Session
  {
    Session(initialIndex, 0, true, false, true, map[], false)
  }

  /** The index points into the list and the direction is one of -1, 0, +1. */
  predicate InBounds(videos: seq<Video>, s: Session)
  {
    0 <= s.index < |videos| && -1 <= s.direction <= 1
  }

  /** `likes[id]?.liked || false`: an absent entry reads as not liked. */
  function Liked(likes: map<VideoId, bool>, id: VideoId): bool
  {
    id in likes && likes[id]
  }

  function CurrentVideo(videos: seq<Video>, s: Session): Option<Video>
  {
    GetVideo(videos, s.index)
  }

  // ---------------------------------------------------------------- navigation

  /** `handlePrev`. */
  function Prev(s: Session): Session
  {
    if s.index > 0 then s.(index := s.index - 1, direction := -1, loading := true, paused := false)
    else s
  }

  /** `handleNext`. */
  function Next(videos: seq<Video>, s: Session): Session
  {
    if s.index < |videos| - 1 then s.(index := s.index + 1, direction := 1, loading := true, paused := false)
    else s
  }

  /** The `disabled` attributes of the two arrow buttons. */
  predicate PrevDisabled(s: Session) { s.index == 0 }
  predicate NextDisabled(videos: seq<Video>, s: Session) { s.index == |videos| - 1 }

  /** A move inside the list steps the index by one, points the animation that
      way, shows the spinner and clears the pause; nothing else changes. */
  lemma PrevStepsBack(s: Session)
    requires s.index > 0
    ensures Prev(s).index == s.index - 1 && Prev(s).direction == -1
    ensures Prev(s).loading && !Prev(s).paused
    ensures Prev(s).likes == s.likes && Prev(s).muted == s.muted && Prev(s).sharing == s.sharing
  {
  }

  lemma NextStepsForward(videos: seq<Video>, s: Session)
    requires s.index < |videos| - 1
    ensures Next(videos, s).index == s.index + 1 && Next(videos, s).direction == 1
    ensures Next(videos, s).loading && !Next(videos, s).paused
    ensures Next(videos, s).likes == s.likes && Next(videos, s).muted == s.muted
    ensures Next(videos, s).sharing == s.sharing
  {
  }

  /** Each arrow button is disabled exactly in the states where its handler
      changes nothing. */
  lemma PrevDisabledIffNoop(videos: seq<Video>, s: Session)
    requires InBounds(videos, s)
    ensures PrevDisabled(s) <==> Prev(s) == s
  {
  }

  lemma NextDisabledIffNoop(videos: seq<Video>, s: Session)
    requires InBounds(videos, s)
    ensures NextDisabled(videos, s) <==> Next(videos, s) == s
  {
  }

  /** Stepping back and then forward returns to the starting video, and so does
      forward then back. */
  lemma PrevNextReturn(videos: seq<Video>, s: Session)
    requires InBounds(videos, s)
    ensures s.index > 0 ==> Next(videos, Prev(s)).index == s.index
    ensures s.index < |videos| - 1 ==> Prev(Next(videos, s)).index == s.index
  {
  }

  // ---------------------------------------------------------------- surfaces

  /** The three surfaces mounted around the centre: left, centre, right. */
  datatype Window = Window(left: Option<Video>, center: Option<Video>, right: Option<Video>)

  function Surfaces(videos: seq<Video>, s: Session): Window
  {
    Window(GetVideo(videos, s.index - 1), GetVideo(videos, s.index), GetVideo(videos, s.index + 1))
  }

  /** With the index in range the centre always exists; the left surface exists
      iff there is a previous video and the right one iff there is a next video,
      and each shows its neighbour. */
  lemma SurfacesFollowIndex(videos: seq<Video>, s: Session)
    requires InBounds(videos, s)
    ensures Surfaces(videos, s).center == Some(videos[s.index])
    ensures Surfaces(videos, s).left.Some? <==> s.index >= 1
    ensures Surfaces(videos, s).right.Some? <==> s.index + 1 < |videos|
    ensures Surfaces(videos, s).left.Some? ==> Surfaces(videos, s).left.value == videos[s.index - 1]
    ensures Surfaces(videos, s).right.Some? ==> Surfaces(videos, s).right.value == videos[s.index + 1]
    ensures Surfaces(videos, s).left.None? <==> PrevDisabled(s)
    ensures Surfaces(videos, s).right.None? <==> NextDisabled(videos, s)
  {
  }

  /** Three videos opened at the middle one show all three surfaces; one step
      back leaves no left surface; one step forward from there is back at the
      middle. */
  lemma ThreeVideoWalk(a: Video, b: Video, c: Video)
    ensures var s := Initial(1);
      && Surfaces([a, b, c], s) == Window(Some(a), Some(b), Some(c))
      && Surfaces([a, b, c], Prev(s)) == Window(None, Some(a), Some(b))
      && Surfaces([a, b, c], Next([a, b, c], Prev(s))) == Window(Some(a), Some(b), Some(c))
  {
  }

  // ---------------------------------------------------------------- likes

  /** `handleLike`: flip the current video's flag at once, then restore the
      captured value unless the call answered `success`. */
  function Like(videos: seq<Video>, s: Session, response: LikeResponse): Session
  {
    match CurrentVideo(videos, s)
    case None => s
    case Some(v) =>
      var was := Liked(s.likes, v.id);
      var optimistic := s.likes[v.id := !was];
      if response == Responded(true) then s.(likes := optimistic)
      else s.(likes := optimistic[v.id := was])
  }

  /** `getTotalLikes`: the base count plus one when this session liked the
      current video, and zero without a current video. */
  function TotalLikes(videos: seq<Video>, s: Session): (n: int)
    ensures CurrentVideo(videos, s).None? ==> n == 0
    ensures CurrentVideo(videos, s).Some? ==>
      var base := BaseLikes(CurrentVideo(videos, s).value);
      base <= n <= base + 1 && (n == base + 1 <==> Liked(s.likes, CurrentVideo(videos, s).value.id))
  {
    match CurrentVideo(videos, s)
    case None => 0
    case Some(v) => BaseLikes(v) + (if Liked(s.likes, v.id) then 1 else 0)
  }

  /** Without a current video a like does nothing. */
  lemma LikeWithoutVideo(videos: seq<Video>, s: Session, response: LikeResponse)
    requires CurrentVideo(videos, s).None?
    ensures Like(videos, s, response) == s
  {
  }

  /** A successful like negates the current video's flag (absent reads as false)
      and leaves every other entry and every other field as it was. */
  lemma LikeSucceeds(videos: seq<Video>, s: Session, v: Video)
    requires CurrentVideo(videos, s) == Some(v)
    ensures var r := Like(videos, s, Responded(true));
      && Liked(r.likes, v.id) == !Liked(s.likes, v.id)
      && r.likes.Keys == s.likes.Keys + {v.id}
      && (forall k :: k in s.likes && k != v.id ==> r.likes[k] == s.likes[k])
      && r.(likes := s.likes) == s
  {
  }

  /** A rejected call or an unsuccessful response restores the flag of the
      current video exactly; the only trace left is that an absent entry is now
      stored as `false`. The displayed count is unchanged. */
  lemma LikeFailsReverts(videos: seq<Video>, s: Session, v: Video, response: LikeResponse)
    requires CurrentVideo(videos, s) == Some(v)
    requires response != Responded(true)
    ensures var r := Like(videos, s, response);
      && r.likes == s.likes[v.id := Liked(s.likes, v.id)]
      && (forall id :: Liked(r.likes, id) == Liked(s.likes, id))
      && r.(likes := s.likes) == s
      && TotalLikes(videos, r) == TotalLikes(videos, s)
  {
    var r := Like(videos, s, response);
    assert r.likes == s.likes[v.id := Liked(s.likes, v.id)];
  }

  /** Two successful likes in a row restore every flag and the displayed count. */
  lemma LikeTwiceRestores(videos: seq<Video>, s: Session)
    ensures var r := Like(videos, Like(videos, s, Responded(true)), Responded(true));
      && (forall id :: Liked(r.likes, id) == Liked(s.likes, id))
      && TotalLikes(videos, r) == TotalLikes(videos, s)
      && r.(likes := s.likes) == s
  {
    var once := Like(videos, s, Responded(true));
    assert CurrentVideo(videos, once) == CurrentVideo(videos, s);
  }

  // ---------------------------------------------------------------- playback

  /** `toggleMute`: flips `isMuted` when the centre element is attached. */
  function FlipMute(s: Session, element: MediaElement): Session
  {
    if element.Attached? then s.(muted := !s.muted) else s
  }

  /** `togglePlayPause`: a paused element is asked to play, and `isPaused` then
      records whether that failed; a playing element is paused. */
  function FlipPlayback(s: Session, element: MediaElement, playSucceeds: bool): Session
  {
    match element
    case Detached => s
    case Attached(elementPaused) =>
      if elementPaused then s.(paused := !playSucceeds) else s.(paused := true)
  }

  /** The `canplay` listener: the spinner clears, and unless the session is
      paused the element is played, a failed play leaving it paused. */
  function CanPlay(s: Session, playSucceeds: bool): Session
  {
    s.(loading := false, paused := s.paused || !playSucceeds)
  }

  /** After a toggle the pause flag is the opposite of the element's own state,
      unless playing was refused; the index, likes and mute are untouched. */
  lemma PlayPauseFollowsElement(s: Session, elementPaused: bool, playSucceeds: bool)
    ensures var r := FlipPlayback(s, Attached(elementPaused), playSucceeds);
      && (r.paused <==> !elementPaused || !playSucceeds)
      && r.(paused := s.paused) == s
  {
  }

  /** With the element attached a toggle flips only `isMuted`, so two toggles
      restore the session, whatever the element's play state; without an
      element a toggle does nothing. */
  lemma MuteTwiceRestores(s: Session, e: MediaElement, e2: MediaElement)
    ensures e.Attached? ==> FlipMute(s, e).muted != s.muted && FlipMute(s, e).(muted := s.muted) == s
    ensures e.Attached? && e2.Attached? ==> FlipMute(FlipMute(s, e), e2) == s
    ensures e.Detached? ==> FlipMute(s, e) == s
  {
  }

  // ---------------------------------------------------------------- event runs

  /** The user and media events the carousel reacts to. */
  datatype Event =
    | PrevClicked
    | NextClicked
    | LikeClicked(response: LikeResponse)
    | MuteClicked(muteElement: MediaElement)
    | VideoClicked(element: MediaElement, playSucceeds: bool)
    | ReadyToPlay(playOk: bool)
    | ShareClicked
    | ShareClosed

  function Step(videos: seq<Video>, s: Session, e: Event): Session
  {
    match e
    case PrevClicked => Prev(s)
    case NextClicked => Next(videos, s)
    case LikeClicked(response) => Like(videos, s, response)
    case MuteClicked(element) => FlipMute(s, element)
    case VideoClicked(element, ok) => FlipPlayback(s, element, ok)
    case ReadyToPlay(ok) => CanPlay(s, ok)
    case ShareClicked => s.(sharing := true)
    case ShareClosed => s.(sharing := false)
  }

  function Run(videos: seq<Video>, s: Session, events: seq<Event>): Session
    decreases |events|
  {
    if events == [] then s else Run(videos, Step(videos, s, events[0]), events[1..])
  }

  lemma StepKeepsBounds(videos: seq<Video>, s: Session, e: Event)
    requires InBounds(videos, s)
    ensures InBounds(videos, Step(videos, s, e))
  {
  }

  /** Whatever the user clicks and whatever the media and network answer, an
      index that starts inside the list stays inside it, and so the centre
      surface always exists. */
  lemma {:induction false} RunKeepsBounds(videos: seq<Video>, s: Session, events: seq<Event>)
    requires InBounds(videos, s)
    ensures InBounds(videos, Run(videos, s, events))
    ensures CurrentVideo(videos, Run(videos, s, events)).Some?
    decreases |events|
  {
    if events != [] {
      StepKeepsBounds(videos, s, events[0]);
      RunKeepsBounds(videos, Step(videos, s, events[0]), events[1..]);
    }
  }

  /** Navigation alone never changes the likes or the mute setting. */
  lemma {:induction false} NavigationKeepsLikes(videos: seq<Video>, s: Session, events: seq<Event>)
    requires forall i :: 0 <= i < |events| ==> events[i] == PrevClicked || events[i] == NextClicked
    ensures Run(videos, s, events).likes == s.likes
    ensures Run(videos, s, events).muted == s.muted
    decreases |events|
  {
    if events != [] {
      NavigationKeepsLikes(videos, Step(videos, s, events[0]), events[1..]);
    }
  }

  // ---------------------------------------------------------------- the component

  /** `VideoCarouselFixedCenter`: the state fields updated in place by its handlers. */
  class Carousel {
    const videos: seq<Video>
    var currentIndex: int
    var direction: int
    var isMuted: bool
    var isPaused: bool
    var isLoading: bool
    var likes: map<VideoId, bool>
    var showShareModal: bool

    function State(): Session
      reads this
    {
      Session(currentIndex, direction, isMuted, isPaused, isLoading, likes, showShareModal)
    }

    predicate Valid()
      reads this
    {
      InBounds(videos, State())
    }

    /** `initialIndex` is not checked by the component; its one caller passes
        the position of a card in the same list. */
    constructor (videos: seq<Video>, initialIndex: int)
      requires 0 <= initialIndex < |videos|
      ensures this.videos == videos
      ensures State() == Initial(initialIndex)
      ensures Valid()
    {
      this.videos := videos;
      currentIndex := initialIndex;
      direction := 0;
      isMuted := true;
      isPaused := false;
      isLoading := true;
      likes := map[];
      showShareModal := false;
    }

    method HandlePrev()
      modifies this
      ensures old(Valid()) ==> Valid()
      ensures State() == Prev(old(State()))
    {
      if currentIndex > 0 {
        direction := -1;
        currentIndex := currentIndex - 1;
        isLoading := true;
        isPaused := false;
      }
    }

    method HandleNext()
      modifies this
      ensures old(Valid()) ==> Valid()
      ensures State() == Next(videos, old(State()))
    {
      if currentIndex < |videos| - 1 {
        direction := 1;
        currentIndex := currentIndex + 1;
        isLoading := true;
        isPaused := false;
      }
    }

    /** The like toggle with its snapshot-and-revert, the call's outcome given. */
    method HandleLike(response: LikeResponse)
      modifies this
      ensures old(Valid()) ==> Valid()
      ensures State() == Like(videos, old(State()), response)
    {
      var video := GetVideo(videos, currentIndex);
      if video.None? {
        return;
      }
      var videoId := video.value.id;
      var isCurrentlyLiked := videoId in likes && likes[videoId];
      likes := likes[videoId := !isCurrentlyLiked];
      if response != Responded(true) {
        likes := likes[videoId := isCurrentlyLiked];
      }
    }

    /** `getTotalLikes` as the component runs it, reading its own fields; the
        value it returns is the count `TotalLikes` specifies. */
    method GetTotalLikes() returns (n: int)
      ensures n == TotalLikes(videos, State())
    {
      var video := GetVideo(videos, currentIndex);
      if video.None? {
        return 0;
      }
      var baseLikes := BaseLikes(video.value);
      var userLiked := video.value.id in likes && likes[video.value.id];
      n := baseLikes + if userLiked then 1 else 0;
    }

    method ToggleMute(element: MediaElement)
      modifies this
      ensures old(Valid()) ==> Valid()
      ensures State() == FlipMute(old(State()), element)
    {
      if element.Attached? {
        isMuted := !isMuted;
      }
    }

    method TogglePlayPause(element: MediaElement, playSucceeds: bool)
      modifies this
      ensures old(Valid()) ==> Valid()
      ensures State() == FlipPlayback(old(State()), element, playSucceeds)
    {
      if element.Attached? {
        if element.paused {
          isPaused := !playSucceeds;
        } else {
          isPaused := true;
        }
      }
    }

    method OnCanPlay(playSucceeds: bool)
      modifies this
      ensures old(Valid()) ==> Valid()
      ensures State() == CanPlay(old(State()), playSucceeds)
    {
      isLoading := false;
      if !isPaused {
        isPaused := !playSucceeds;
      }
    }

    method HandleShare()
      modifies this
      ensures old(Valid()) ==> Valid()
      ensures State() == old(State()).(sharing := true)
    {
      showShareModal := true;
    }

    /** The `onClose` callback handed to the share panel. */
    method CloseShare()
      modifies this
      ensures old(Valid()) ==> Valid()
      ensures State() == old(State()).(sharing := false)
    {
      showShareModal := false;
    }
  }
}
