/** The horizontal strip: it fetches the video list (with a retry after a
    failure), enables its two scroll buttons from the scroll position, and opens
    the focused carousel at the card the user picked. */
module HorizontalCarousel {
  import opened Videos
  import VideoCarousel

  /** How a fetch of the video list settles. */
  datatype FetchOutcome = Fetched(list: seq<Video>) | FetchFailed

  /** The three numbers `checkScroll` reads from the scroll container: the
      widths are whole pixels, the offset may be fractional. */
  datatype ScrollMetrics = ScrollMetrics(scrollLeft: real, scrollWidth: int, clientWidth: int)

  /** What the strip draws: a spinner, the error message with a retry button, or the cards. */
  datatype View = Spinner | ErrorView(message: string) | Cards(cards: seq<Video>)

  /** The component's state fields. */
  datatype Strip = Strip(
    videos: seq<Video>,
    loading: bool,
    error: Option<string>,
    showCarousel: bool,
    selectedIndex: int,
    canScrollLeft: bool,
    canScrollRight: bool)

  const LoadFailedMessage: string := "Failed to load videos. Please try again."

  /** The initial values of the state fields. */
  function Fresh(): Strip
  {
    Strip([], true, None, false, 0, false, false)
  }

  // ---------------------------------------------------------------- loading

  /** The start of `loadVideos`, on mount and on retry alike. */
  function BeginLoad(s: Strip): Strip
  {
    s.(loading := true, error := None)
  }

  /** The rest of `loadVideos`, once the fetch has settled. */
  function SettleLoad(s: Strip, outcome: FetchOutcome): Strip
  {
    match outcome
    case Fetched(list) => s.(videos := list, loading := false)
    case FetchFailed => s.(error := Some(LoadFailedMessage), loading := false)
  }

  /** A whole load, without anything happening while the fetch is pending. */
  function Load(s: Strip, outcome: FetchOutcome): Strip
  {
    SettleLoad(BeginLoad(s), outcome)
  }

  /** The render: spinner first, then the error, then the cards. */
  function Render(s: Strip): View
  {
    if s.loading then Spinner
    else if s.error.Some? then ErrorView(s.error.value)
    else Cards(s.videos)
  }

  /** The three views are exclusive and taken in that order of priority. */
  lemma RenderPriority(s: Strip)
    ensures Render(s) == Spinner <==> s.loading
    ensures Render(s).ErrorView? <==> !s.loading && s.error.Some?
    ensures Render(s).Cards? <==> !s.loading && s.error.None?
    ensures Render(s).Cards? ==> Render(s).cards == s.videos
  {
  }

  /** While a load is pending the spinner shows and the old error is gone; a
      successful load shows exactly the fetched list; a failed one keeps the
      list and shows the fixed message. Neither touches the carousel or the
      scroll buttons. */
  lemma LoadLifecycle(s: Strip, outcome: FetchOutcome)
    ensures Render(BeginLoad(s)) == Spinner && BeginLoad(s).error.None?
    ensures !Load(s, outcome).loading
    ensures outcome.Fetched? ==>
      Load(s, outcome).videos == outcome.list && Load(s, outcome).error.None? &&
      Render(Load(s, outcome)) == Cards(outcome.list)
    ensures outcome.FetchFailed? ==>
      Load(s, outcome).videos == s.videos && Load(s, outcome).error == Some(LoadFailedMessage) &&
      Render(Load(s, outcome)) == ErrorView(LoadFailedMessage)
    ensures Load(s, outcome).(videos := s.videos, loading := s.loading, error := s.error) == s
  {
  }

  /** The mount's load starts from the initial state without changing it. */
  lemma MountLoadStartsFresh()
    ensures BeginLoad(Fresh()) == Fresh()
    ensures Render(Fresh()) == Spinner
  {
  }

  /** A failed fetch shows the error; retrying with a successful fetch shows the
      cards and clears the error. */
  lemma RetryRecovers(s: Strip, list: seq<Video>)
    ensures Render(Load(s, FetchFailed)) == ErrorView(LoadFailedMessage)
    ensures Render(Load(Load(s, FetchFailed), Fetched(list))) == Cards(list)
    ensures Load(Load(s, FetchFailed), Fetched(list)).error.None?
  {
  }

  // ---------------------------------------------------------------- scrolling

  /** The largest scroll offset of the container. */
  function MaxOffset(m: ScrollMetrics): int
  {
    m.scrollWidth - m.clientWidth
  }

  function CanScrollLeft(m: ScrollMetrics): bool
  {
    m.scrollLeft > 0.0
  }

  /** One unit of tolerance for rounding: the button is already off one unit
      short of the end. */
  function CanScrollRight(m: ScrollMetrics): bool
  {
    m.scrollLeft < (m.scrollWidth - m.clientWidth - 1) as real
  }

  /** For an offset inside the scroll range: the left button is off exactly at
      the start and the right one exactly within one unit of the end; a strip
      that can move by two units or more always offers some direction, and one
      that fits (within the tolerance) never offers the right one. */
  lemma ScrollButtons(m: ScrollMetrics)
    requires 0.0 <= m.scrollLeft <= MaxOffset(m) as real
    ensures !CanScrollLeft(m) <==> m.scrollLeft == 0.0
    ensures !CanScrollRight(m) <==> m.scrollLeft >= (MaxOffset(m) - 1) as real
    ensures MaxOffset(m) >= 2 ==> CanScrollLeft(m) || CanScrollRight(m)
    ensures MaxOffset(m) <= 1 ==> !CanScrollRight(m)
  {
  }

  /** `checkScroll`: the flags are recomputed when the container is mounted. */
  function ScrollFlags(s: Strip, container: Option<ScrollMetrics>): Strip
  {
    match container
    case None => s
    case Some(m) => s.(canScrollLeft := CanScrollLeft(m), canScrollRight := CanScrollRight(m))
  }

  // ---------------------------------------------------------------- the carousel overlay

  function CardClick(s: Strip, index: int): Strip
  {
    s.(selectedIndex := index, showCarousel := true)
  }

  function CloseCarousel(s: Strip): Strip
  {
    s.(showCarousel := false)
  }

  /** The list and start index handed to the focused carousel, when it is mounted. */
  function CarouselProps(s: Strip): Option<(seq<Video>, int)>
  {
    if s.showCarousel && |s.videos| > 0 then Some((s.videos, s.selectedIndex)) else None
  }

  /** Closing hides only the overlay: the list, the selection and the load state
      stay, so clicking the same card again restores the strip exactly. */
  lemma CloseThenReopen(s: Strip)
    requires s.showCarousel
    ensures CarouselProps(CloseCarousel(s)).None?
    ensures CloseCarousel(s).(showCarousel := true) == s
    ensures CardClick(CloseCarousel(s), s.selectedIndex) == s
  {
  }

  // ---------------------------------------------------------------- reachable states

  /** What the user and the network can do to the strip. */
  datatype Event =
    | LoadSettled(outcome: FetchOutcome)
    | RetryClicked
    | CardClicked(index: int)
    | CarouselClosed
    | Scrolled(container: Option<ScrollMetrics>)

  /** When an event can happen at all: a fetch settles only while one is
      pending, the retry button exists only in the error view, and card `i`
      exists only in the card row, at a position of the list. */
  predicate Enabled(s: Strip, e: Event)
  {
    match e
    case LoadSettled(_) => s.loading
    case RetryClicked => Render(s).ErrorView?
    case CardClicked(i) => Render(s).Cards? && 0 <= i < |s.videos|
    case CarouselClosed => true
    case Scrolled(_) => true
  }

  function Step(s: Strip, e: Event): Strip
  {
    match e
    case LoadSettled(outcome) => SettleLoad(s, outcome)
    case RetryClicked => BeginLoad(s)
    case CardClicked(i) => CardClick(s, i)
    case CarouselClosed => CloseCarousel(s)
    case Scrolled(container) => ScrollFlags(s, container)
  }

  predicate AllEnabled(s: Strip, events: seq<Event>)
    decreases |events|
  {
    events == [] || (Enabled(s, events[0]) && AllEnabled(Step(s, events[0]), events[1..]))
  }

  function Run(s: Strip, events: seq<Event>): Strip
    decreases |events|
  {
    if events == [] then s else Run(Step(s, events[0]), events[1..])
  }

  /** What holds of every reachable strip: a pending load or an error means no
      list has been loaded (a load only starts on mount or from the error view),
      and an open carousel was opened at a position of the current list. */
  predicate Inv(s: Strip)
  {
    && (s.loading ==> s.error.None? && s.videos == [])
    && (s.error.Some? ==> s.videos == [])
    && (s.showCarousel ==> 0 <= s.selectedIndex < |s.videos|)
  }

  lemma StepKeepsInv(s: Strip, e: Event)
    requires Inv(s) && Enabled(s, e)
    ensures Inv(Step(s, e))
  {
  }

  lemma {:induction false} RunKeepsInv(s: Strip, events: seq<Event>)
    requires Inv(s) && AllEnabled(s, events)
    ensures Inv(Run(s, events))
    decreases |events|
  {
    if events != [] {
      StepKeepsInv(s, events[0]);
      RunKeepsInv(Step(s, events[0]), events[1..]);
    }
  }

  /** In every reachable state the focused carousel, when mounted, receives a
      start index inside the list it is given: the precondition of its
      constructor always holds. */
  lemma CarouselIndexInRange(events: seq<Event>)
    requires AllEnabled(Fresh(), events)
    ensures var props := CarouselProps(Run(Fresh(), events));
      props.Some? ==> 0 <= props.value.1 < |props.value.0|
  {
    RunKeepsInv(Fresh(), events);
  }

  // ---------------------------------------------------------------- the component

  /** `HorizontalCarousel`: the state fields updated in place by its handlers. */
  class HorizontalStrip {
    var videos: seq<Video>
    var loading: bool
    var error: Option<string>
    var showCarousel: bool
    var selectedIndex: int
    var canScrollLeft: bool
    var canScrollRight: bool

    function State(): Strip
      reads this
    {
      Strip(videos, loading, error, showCarousel, selectedIndex, canScrollLeft, canScrollRight)
    }

    /** The initial field values, which the start of the mount's load leaves as they are. */
    constructor ()
      ensures State() == BeginLoad(Fresh())
      ensures Inv(State())
    {
      videos := [];
      loading := true;
      error := None;
      showCarousel := false;
      selectedIndex := 0;
      canScrollLeft := false;
      canScrollRight := false;
    }

    /** The continuation of `loadVideos` once `fetchVideos` has settled; it
        only runs after the start of the load has set `loading`. */
    method OnFetchSettled(outcome: FetchOutcome)
      requires Enabled(State(), LoadSettled(outcome))
      modifies this
      ensures State() == SettleLoad(old(State()), outcome)
      ensures old(Inv(State())) ==> Inv(State())
    {
      match outcome {
        case Fetched(list) =>
          videos := list;
        case FetchFailed =>
          error := Some(LoadFailedMessage);
      }
      loading := false;
    }

    /** `handleRetry`: the same start of a load as on mount, offered only by
        the error view's button. */
    method HandleRetry()
      requires Enabled(State(), RetryClicked)
      modifies this
      ensures State() == BeginLoad(old(State()))
      ensures old(Inv(State())) ==> Inv(State())
    {
      loading := true;
      error := None;
    }

    method CheckScroll(container: Option<ScrollMetrics>)
      modifies this
      ensures State() == ScrollFlags(old(State()), container)
      ensures old(Inv(State())) ==> Inv(State())
    {
      if container.Some? {
        var m := container.value;
        canScrollLeft := m.scrollLeft > 0.0;
        canScrollRight := m.scrollLeft < (m.scrollWidth - m.clientWidth - 1) as real;
      }
    }

    /** `handleCardClick`, bound to the card at position `index` of the row. */
    method HandleCardClick(index: int)
      requires Enabled(State(), CardClicked(index))
      modifies this
      ensures State() == CardClick(old(State()), index)
      ensures old(Inv(State())) ==> Inv(State())
    {
      selectedIndex := index;
      showCarousel := true;
    }

    method HandleCloseCarousel()
      modifies this
      ensures State() == CloseCarousel(old(State()))
      ensures old(Inv(State())) ==> Inv(State())
    {
      showCarousel := false;
    }

    /** The render guard `showCarousel && videos.length > 0`: mounts the focused
        carousel over the strip's list at the selected card. */
    method MountCarousel() returns (c: VideoCarousel.Carousel?)
      requires Inv(State())
      ensures c != null <==> CarouselProps(State()).Some?
      ensures c != null ==> fresh(c) && c.videos == videos && c.Valid()
      ensures c != null ==> c.State() == VideoCarousel.Initial(selectedIndex)
    {
      if showCarousel && |videos| > 0 {
        c := new VideoCarousel.Carousel(videos, selectedIndex);
      } else {
        c := null;
      }
    }
  }
}
