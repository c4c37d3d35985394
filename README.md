# Video gallery UI state machines in Dafny

This project models the three small state machines of a React video gallery.

- **Horizontal strip** (`HorizontalCarousel`). It fetches the video list once on mount, with a retry after a failure. It enables its two scroll buttons from the scroll position. It opens the focused carousel at the card the user picks.
- **Focused carousel** (`VideoCarouselFixedCenter`). It shows three surfaces: previous, centre and next. It navigates within a fixed list and holds the playback flags. It has an optimistic like toggle that reverts on failure.
- **Share panel** (`ShareModal`). It has three share actions guarded by one `loading` field. That field names the action in flight. The panel also builds the share links and closes on an outside click.

Each component is modelled in the same way:

- a datatype of its state fields (`Session`, `Panel`, `Strip`);
- pure transition functions, one per handler, with lemmas stating what the source promises;
- a class whose fields are the component's state fields. Its methods are the event handlers, written imperatively. Each method ensures that its new `State()` equals the transition function applied to `old(State())`.

Results from the network and the DOM become parameters:

- a like response: `Rejected` or `Responded(success)`;
- whether the share call or the clipboard write succeeded;
- a fetched list or a failure;
- the container's scroll metrics;
- whether the media element is attached and paused, and whether `play()` succeeded.

`encodeURIComponent` is the parameter `enc`, which yields `None` where the encoding throws a `URIError`; a share handler treats that like a failed share call. Side effects are kept as logs in the panel state: share calls, opened links, clipboard writes, alerts and `onClose` calls.

An asynchronous handler is split at its `await`:

- The share handlers become `Press` (the guard and claim) and `Settle` (`try`/`catch`/`finally`).
- A load becomes `BeginLoad` and `SettleLoad`.

After the split, a second press can happen while a share is in flight, and the spinner state can be reached. The like handler is one atomic step.

Files:

- `videos.dfy`: module `Videos` (the video record, `getVideo`);
- `video_carousel.dfy`: module `VideoCarousel`;
- `share_modal.dfy`: module `ShareModal`;
- `horizontal_carousel.dfy`: module `HorizontalCarousel`.

Behaviours of the code worth noting:

- An outside click closes the share panel only when the panel is mounted and the click target lies outside it; a click inside it changes nothing.
- A successful copy also raises an alert: "Link copied to clipboard!".
- A failed like writes the captured flag back, even when the video had no entry before. The flag reads the same afterwards, but the map now holds an explicit `false` entry.

## Model

| member | source | states |
|---|---|---|
| Videos.GetVideoInBounds | src/components/VideoCarousel/VideoCarousel.jsx:52-57 | `getVideo(i)` returns a video exactly when `0 <= i < len`, and then returns `videos[i]` |
| VideoCarousel.Carousel.constructor | src/components/VideoCarousel/VideoCarousel.jsx:7-15 | the initial state: index = `initialIndex` (required in range, because the component does not check it), direction 0, muted, not paused, loading, no likes, panel closed |
| VideoCarousel.PrevStepsBack | src/components/VideoCarousel/VideoCarousel.jsx:32-40 | when the index is above 0, prev decrements it and sets direction -1, loading on and paused off; likes, mute and the share panel are unchanged |
| VideoCarousel.NextStepsForward | src/components/VideoCarousel/VideoCarousel.jsx:42-50 | when the index is below len-1, next increments it and sets direction +1, loading on and paused off; nothing else changes |
| VideoCarousel.PrevDisabledIffNoop | src/components/VideoCarousel/VideoCarousel.jsx:292-298 | the prev button is disabled iff prev changes nothing |
| VideoCarousel.NextDisabledIffNoop | src/components/VideoCarousel/VideoCarousel.jsx:433-442 | the next button is disabled iff next changes nothing |
| VideoCarousel.PrevNextReturn | src/components/VideoCarousel/VideoCarousel.jsx:32-50 | next after a real prev returns to the starting index, and prev after a real next does too |
| VideoCarousel.Carousel.HandlePrev | src/components/VideoCarousel/VideoCarousel.jsx:32-40 | the new state is `Prev` of the old one; an in-range index stays in range |
| VideoCarousel.Carousel.HandleNext | src/components/VideoCarousel/VideoCarousel.jsx:42-50 | the new state is `Next` of the old one; an in-range index stays in range |
| VideoCarousel.SurfacesFollowIndex | src/components/VideoCarousel/VideoCarousel.jsx:304-429 | for an in-range index, the centre surface is `videos[index]`; the left surface exists iff index >= 1 and the right one iff index+1 < len; each shows its neighbour; a side surface is missing exactly when its arrow is disabled |
| VideoCarousel.ThreeVideoWalk | src/components/VideoCarousel/VideoCarousel.jsx:304-429 | for [A,B,C] opened at 1, the surfaces are A, B, C; after prev they are none, A, B; after next again A, B, C |
| VideoCarousel.TotalLikes | src/components/VideoCarousel/VideoCarousel.jsx:239-246 | the displayed count is 0 with no current video; otherwise it lies between base and base+1 and equals base+1 iff the session liked the video |
| VideoCarousel.Carousel.GetTotalLikes | src/components/VideoCarousel/VideoCarousel.jsx:239-246 | the count read imperatively from the component's fields equals `TotalLikes` of the state, which carries the bounds |
| VideoCarousel.LikeWithoutVideo | src/components/VideoCarousel/VideoCarousel.jsx:103-105 | with no current video, a like changes nothing |
| VideoCarousel.LikeSucceeds | src/components/VideoCarousel/VideoCarousel.jsx:103-124 | a successful like negates the current video's flag (an absent entry counts as false); the key set grows by that id only; every other entry and every other field is unchanged |
| VideoCarousel.LikeFailsReverts | src/components/VideoCarousel/VideoCarousel.jsx:117-131 | a rejected call or `success == false` restores every flag exactly (the map only gains an explicit entry for the id), leaves the other fields alone and keeps the displayed count |
| VideoCarousel.LikeTwiceRestores | src/components/VideoCarousel/VideoCarousel.jsx:103-131 | two successful likes restore every flag, the displayed count and all other fields |
| VideoCarousel.Carousel.HandleLike | src/components/VideoCarousel/VideoCarousel.jsx:103-132 | the snapshot, flip and revert on the fields give `Like` of the old state; an in-range index stays in range |
| VideoCarousel.MuteTwiceRestores | src/components/VideoCarousel/VideoCarousel.jsx:59-65 | for any attached element a mute toggle flips `isMuted` and nothing else, and two toggles restore the state; with no element a toggle changes nothing |
| VideoCarousel.Carousel.ToggleMute | src/components/VideoCarousel/VideoCarousel.jsx:59-65 | flips `isMuted` only when the element is attached; an in-range index stays in range |
| VideoCarousel.PlayPauseFollowsElement | src/components/VideoCarousel/VideoCarousel.jsx:67-95 | after a play/pause toggle, paused holds iff the element was playing or `play()` was refused; only `isPaused` changes |
| VideoCarousel.Carousel.TogglePlayPause | src/components/VideoCarousel/VideoCarousel.jsx:67-95 | the new state is `FlipPlayback` of the old one: a paused element is played, and `isPaused` records a failure; a playing element is paused; nothing happens without an element; an in-range index stays in range |
| VideoCarousel.Carousel.OnCanPlay | src/components/VideoCarousel/VideoCarousel.jsx:193-205 | `canplay` clears loading; unless paused it plays, and a refused play leaves the session paused; an in-range index stays in range |
| VideoCarousel.Carousel.HandleShare | src/components/VideoCarousel/VideoCarousel.jsx:134-137 | opens the share panel and changes nothing else, so an in-range index stays in range |
| VideoCarousel.Carousel.CloseShare | src/components/VideoCarousel/VideoCarousel.jsx:402-405 | the panel's `onClose` closes the panel and changes nothing else, so an in-range index stays in range |
| VideoCarousel.StepKeepsBounds | src/components/VideoCarousel/VideoCarousel.jsx:32-50 | every event keeps the index in `[0, len-1]` and the direction in {-1, 0, 1} |
| VideoCarousel.RunKeepsBounds | src/components/VideoCarousel/VideoCarousel.jsx:32-50 | over any sequence of events, an in-range index stays in range, so a current video always exists |
| VideoCarousel.NavigationKeepsLikes | src/components/VideoCarousel/VideoCarousel.jsx:32-50 | any run of prev/next leaves the likes and the mute setting unchanged |
| ShareModal.LinksCarryUrl | src/components/ShareModal/ShareModal.jsx:48-65 | when the encodings succeed, the WhatsApp and X links exist and carry the encoded URL as their first query value, up to the next `&`; the X link then ends with `&text=` and the encoded "Check out this video!" |
| ShareModal.LookFollowsLoading | src/components/ShareModal/ShareModal.jsx:106-158 | the spinner shows on a button iff `loading` is that button's tag; a button looks ready iff `loading` is null, which is exactly when the buttons are enabled |
| ShareModal.BusyHandlerIsNoop | src/components/ShareModal/ShareModal.jsx:43-92 | a handler called while `loading` is set changes nothing: no share call, no close, and `loading` stays as it was |
| ShareModal.PressClaims | src/components/ShareModal/ShareModal.jsx:43-92 | from idle, a handler sets `loading` to its own tag and records one share call `(videoId, platform)`; every later press is then refused |
| ShareModal.SettleReleases | src/components/ShareModal/ShareModal.jsx:43-92 | after success or failure, `loading` is null again and no further share call is made |
| ShareModal.SettleOnSuccess | src/components/ShareModal/ShareModal.jsx:43-92 | on success `onClose` runs exactly once. WhatsApp and X open their own link and raise no alert. Copy writes the URL to the clipboard and raises the confirmation alert |
| ShareModal.SettleOnFailure | src/components/ShareModal/ShareModal.jsx:43-92 | on a failed share call, link encoding or clipboard write, one alert with the platform's failure text is raised, `onClose` does not run, and nothing is opened or copied |
| ShareModal.CopyOnlyAfterRecord | src/components/ShareModal/ShareModal.jsx:77-92 | the clipboard changes only on an idle copy whose share call and write both succeed, and then only by the video URL |
| ShareModal.HandleEndsIdle | src/components/ShareModal/ShareModal.jsx:43-92 | a complete handler from idle ends idle and closes the panel exactly when the share call succeeded and the link was built or the clipboard written |
| ShareModal.EncodingFailureAlerts | src/components/ShareModal/ShareModal.jsx:43-75 | when the share call succeeds but the URL cannot be encoded, WhatsApp and X raise the share-failed alert, open no link, do not close the panel and end idle |
| ShareModal.ClickOutside | src/components/ShareModal/ShareModal.jsx:23-29 | the close count grows by exactly one when the panel is mounted and the click target is outside it, and by zero otherwise; nothing else changes |
| ShareModal.SharePanel.constructor | src/components/ShareModal/ShareModal.jsx:5-7 | a new panel is idle (`loading` null) and has no recorded effects |
| ShareModal.SharePanel.Begin | src/components/ShareModal/ShareModal.jsx:43-45 | starts iff `loading` was null, then holds its own tag; the new state is `Press` of the old one |
| ShareModal.SharePanel.Finish | src/components/ShareModal/ShareModal.jsx:46-57 | the continuation after the share call gives `Settle` of the old state |
| ShareModal.SharePanel.HandleShareWhatsApp | src/components/ShareModal/ShareModal.jsx:43-58 | the whole WhatsApp handler equals `Handle` with the WhatsApp tag |
| ShareModal.SharePanel.HandleShareX | src/components/ShareModal/ShareModal.jsx:60-75 | the whole X handler equals `Handle` with the X tag |
| ShareModal.SharePanel.HandleCopyLink | src/components/ShareModal/ShareModal.jsx:77-92 | the whole copy handler equals `Handle` with the copy tag and both outcomes |
| ShareModal.SharePanel.HandleClickOutside | src/components/ShareModal/ShareModal.jsx:24-29 | the new state is `ClickOutside` of the old one |
| HorizontalCarousel.RenderPriority | src/components/HorizontalCarousel/HorizontalCarousel.jsx:104-119 | the view is the spinner iff loading; otherwise the error view iff an error is set; otherwise the card row with exactly the list |
| HorizontalCarousel.LoadLifecycle | src/components/HorizontalCarousel/HorizontalCarousel.jsx:20-32 | starting a load shows the spinner and clears the error. Success shows exactly the fetched list with no error. Failure keeps the list and shows the fixed message. Both end not loading and touch no other field |
| HorizontalCarousel.MountLoadStartsFresh | src/components/HorizontalCarousel/HorizontalCarousel.jsx:7-35 | starting the mount's load leaves the initial state unchanged, and that state shows the spinner |
| HorizontalCarousel.RetryRecovers | src/components/HorizontalCarousel/HorizontalCarousel.jsx:76-91 | a failed fetch shows the error view; a retry with a successful fetch then shows the cards and clears the error |
| HorizontalCarousel.ScrollButtons | src/components/HorizontalCarousel/HorizontalCarousel.jsx:39-45 | for any offset in the scroll range, fractional ones included, left is off iff the offset is 0, and right is off iff the offset is >= max-1. If the strip can scroll two units or more, one button is always on; if it fits, right is off |
| HorizontalCarousel.CloseThenReopen | src/components/HorizontalCarousel/HorizontalCarousel.jsx:93-100 | closing hides only the overlay; clicking the same card again restores the strip exactly, with no refetch |
| HorizontalCarousel.StepKeepsInv | src/components/HorizontalCarousel/HorizontalCarousel.jsx:7-193 | every event the UI allows keeps the strip invariant: a pending load or an error means an empty list, and an open carousel has its index inside the list |
| HorizontalCarousel.RunKeepsInv | src/components/HorizontalCarousel/HorizontalCarousel.jsx:7-193 | the invariant holds after any sequence of allowed events |
| HorizontalCarousel.CarouselIndexInRange | src/components/HorizontalCarousel/HorizontalCarousel.jsx:138-190 | in every reachable state, a mounted carousel receives a start index inside its list, so the carousel constructor's precondition always holds |
| HorizontalCarousel.HorizontalStrip.constructor | src/components/HorizontalCarousel/HorizontalCarousel.jsx:7-35 | the initial fields (empty list, loading, no error, overlay closed) satisfy the invariant and are what the mount's load starts from |
| HorizontalCarousel.HorizontalStrip.OnFetchSettled | src/components/HorizontalCarousel/HorizontalCarousel.jsx:23-31 | runs only while a load is pending; the new state is `SettleLoad` of the old one for the fetch outcome, and the strip invariant is kept |
| HorizontalCarousel.HorizontalStrip.HandleRetry | src/components/HorizontalCarousel/HorizontalCarousel.jsx:76-91 | offered only in the error view; retry starts the same transition as the mount's load (`BeginLoad`) and keeps the strip invariant |
| HorizontalCarousel.HorizontalStrip.CheckScroll | src/components/HorizontalCarousel/HorizontalCarousel.jsx:39-45 | with a container, the flags become `scrollLeft > 0` and `scrollLeft < scrollWidth - clientWidth - 1`; without one, nothing changes; the strip invariant is kept |
| HorizontalCarousel.HorizontalStrip.HandleCardClick | src/components/HorizontalCarousel/HorizontalCarousel.jsx:93-96 | offered only for a card of the row, at a position of the list; sets `selectedIndex` to it, opens the overlay, and keeps the strip invariant |
| HorizontalCarousel.HorizontalStrip.HandleCloseCarousel | src/components/HorizontalCarousel/HorizontalCarousel.jsx:98-100 | clears `showCarousel` only, keeping the strip invariant |
| HorizontalCarousel.HorizontalStrip.MountCarousel | src/components/HorizontalCarousel/HorizontalCarousel.jsx:163-190 | a carousel is created iff `showCarousel && videos.length > 0`. It gets the strip's list and selected index, and is valid from the start |

## Left out

- Progress percentage (`currentTime / duration * 100`). It is floating point, so the `progress` field is not in `Session`.
- The media element's own `src` and `muted` properties, and the effect that swaps the source when the index changes. The navigation handlers already set loading on and paused off, and the element is browser state.
- The `play` and `pause` event listeners that mirror the element into `isPaused`. They are browser event plumbing; the toggle, `canplay` and navigation transitions are modelled.
- Registration and removal of listeners (`canplay`, `play`, `pause`, `timeupdate`, `scroll`, `click`), and the `setTimeout` deferral of the outside-click listener. This is browser event plumbing.
- `scrollBy(±300)` smooth scrolling. The browser decides the new offset; the model takes the resulting metrics as a parameter.
- Framer-motion animation variants and keys, and the debugging `console` and `getBoundingClientRect` effects. They are presentation only.
- Overlapping asynchronous like calls. `HandleLike` is one atomic step.
- Overlapping fetches. A load can settle only while one is pending.
- Stale-closure effects of React batching. Each handler reads the current state.
- The HTTP client (`videoService.js`). Its outcomes are parameters.
- `window.open`, `navigator.clipboard` and `alert`. They are logged as sequences of opened links, clipboard writes and alert texts.
- `encodeURIComponent`. It is the parameter `enc`. Its failure on a string with an unpaired surrogate is an outcome of that parameter, because Dafny strings cannot hold lone surrogates. `LinksCarryUrl` relies only on its escaping of `&`.
- The preview card (`VideoCard.jsx`), the page (`Home.jsx`) and configuration (`env.js`). VideoCard.jsx is a thin IntersectionObserver wrapper. Home.jsx and env.js are composition and configuration only, and are not part of this model.
- The carousel's `onClose` prop. It is never used inside the component.
- JavaScript truthiness of odd values (`likes` being `NaN`, a falsy list entry, a non-array fetch result). Video ids are strings, as object keys are.
