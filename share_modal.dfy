/** The share panel: three share actions guarded by one `loading` field that
    names the action in flight, the share links they open, and the outside
    click that closes the panel. */
module ShareModal {
  import opened Videos

  /** The three platform tags `'whatsapp'`, `'x'` and `'copy'`. */
  datatype Platform = WhatsApp | X | Copy

  /** One call of the share-record operation of the video API. */
  datatype ShareCall = ShareCall(videoId: VideoId, platform: Platform)

  /** The video the panel was opened for. */
  datatype Target = Target(videoId: VideoId, videoUrl: string)

  const WhatsAppPrefix: string := "https://api.whatsapp.com/send?text="
  const XPrefix: string := "https://x.com/intent/tweet?url="
  const XTextParam: string := "&text="
  const XMessage: string := "Check out this video!"

  const ShareFailedAlert: string := "Failed to share video. Please try again."
  const CopyFailedAlert: string := "Failed to copy link. Please try again."
  const CopiedAlert: string := "Link copied to clipboard!"

  // ---------------------------------------------------------------- share links

  /** `encodeURIComponent`: the encoded text, or `None` where it throws a
      `URIError` (a string holding an unpaired surrogate). */
  type Encoder = string -> Option<string>

  /** The WhatsApp share intent, or `None` when encoding the URL throws. */
  function WhatsAppLink(enc: Encoder, videoUrl: string): (r: Option<string>)
    ensures r.Some? <==> enc(videoUrl).Some?
  {
    match enc(videoUrl)
    case None => None
    case Some(u) => Some(WhatsAppPrefix + u)
  }

  /** The X share intent: the encoded video URL, then the encoded fixed
      message; `None` when either encoding throws. */
  function XLink(enc: Encoder, videoUrl: string): (r: Option<string>)
    ensures r.Some? <==> enc(videoUrl).Some? && enc(XMessage).Some?
  {
    if enc(videoUrl).Some? && enc(XMessage).Some? then
      Some(XPrefix + enc(videoUrl).value + XTextParam + enc(XMessage).value)
    else None
  }

  /** The longest prefix of `s` without `c`: how a query value ends at the next `&`. */
  function UpTo(s: string, c: char): (r: string)
    ensures r <= s
    ensures c !in r
    ensures |r| < |s| ==> s[|r|] == c
    decreases |s|
  {
    if s == [] || s[0] == c then [] else [s[0]] + UpTo(s[1..], c)
  }

  /** The value of the first query parameter of `link`, read by whoever receives
      the link: what follows `prefix`, up to the next `&`. */
  function FirstParam(link: string, prefix: string): Option<string>
  {
    if prefix <= link then Some(UpTo(link[|prefix|..], '&')) else None
  }

  lemma {:induction false} UpToStopsAtFirst(a: string, c: char, b: string)
    requires c !in a
    ensures UpTo(a + [c] + b, c) == a
    decreases |a|
  {
    if a != [] {
      assert (a + [c] + b)[1..] == a[1..] + [c] + b;
      UpToStopsAtFirst(a[1..], c, b);
    }
  }

  /** Both share links carry the encoded video URL as their first parameter, as
      long as the encoding succeeds and leaves no `&` in it (`encodeURIComponent`
      escapes it); the X link then carries the encoded fixed message. */
  lemma LinksCarryUrl(enc: Encoder, videoUrl: string, u: string, m: string)
    requires enc(videoUrl) == Some(u) && '&' !in u
    requires enc(XMessage) == Some(m)
    ensures WhatsAppLink(enc, videoUrl).Some?
    ensures FirstParam(WhatsAppLink(enc, videoUrl).value, WhatsAppPrefix) == Some(u)
    ensures XLink(enc, videoUrl).Some?
    ensures FirstParam(XLink(enc, videoUrl).value, XPrefix) == Some(u)
    ensures XLink(enc, videoUrl).value[|XPrefix| + |u|..] == XTextParam + m
  {
    var w := WhatsAppLink(enc, videoUrl).value;
    assert w[|WhatsAppPrefix|..] == u;
    assert UpTo(u, '&') == u;
    var x := XLink(enc, videoUrl).value;
    assert x[|XPrefix|..] == u + ['&'] + ("text=" + m);
    UpToStopsAtFirst(u, '&', "text=" + m);
  }

  // ---------------------------------------------------------------- the panel

  /** The panel's `loading` field and a record of what it did to the outside
      world: share calls made, links opened, clipboard writes, alerts raised and
      calls of `onClose`. */
  datatype Panel = Panel(
    loading: Option<Platform>,
    calls: seq<ShareCall>,
    links: seq<string>,
    clipboard: seq<string>,
    alerts: seq<string>,
    closes: nat)

  function Idle(): Panel
  {
    Panel(None, [], [], [], [], 0)
  }

  /** `disabled={loading !== null}`, the same on all three buttons. */
  predicate ButtonsDisabled(p: Panel)
  {
    p.loading.Some?
  }

  /** How a button is drawn: with the spinner, greyed out, or ready. */
  datatype Look = Waiting | Blocked | Ready

  function ButtonLook(p: Panel, button: Platform): Look
  {
    if p.loading == Some(button) then Waiting
    else if p.loading.Some? then Blocked
    else Ready
  }

  /** The spinner shows on the button of the action in flight and on no other;
      a button looks ready exactly when it is enabled. */
  lemma LookFollowsLoading(p: Panel, button: Platform)
    ensures ButtonLook(p, button) == Waiting <==> p.loading == Some(button)
    ensures ButtonLook(p, button) == Ready <==> !ButtonsDisabled(p)
    ensures p.loading.Some? ==> ButtonLook(p, p.loading.value) == Waiting
  {
  }

  /** The synchronous part of a handler, up to the `await`: refuse when busy,
      otherwise claim the flag with its own tag and issue the share call. */
  function Press(p: Panel, t: Target, button: Platform): Panel
  {
    if p.loading.Some? then p
    else p.(loading := Some(button), calls := p.calls + [ShareCall(t.videoId, button)])
  }

  /** The link a share action opens, or `None` when building it throws; the
      copy action opens none. */
  function ShareLink(enc: Encoder, t: Target, button: Platform): Option<string>
    requires button != Copy
  {
    if button == WhatsApp then WhatsAppLink(enc, t.videoUrl) else XLink(enc, t.videoUrl)
  }

  /** Whether the handler's `try` block ran to `onClose`: the share call
      succeeded, and then the link was built or the clipboard written. */
  predicate Succeeds(enc: Encoder, t: Target, button: Platform, recordOk: bool, clipboardOk: bool)
  {
    recordOk && (if button == Copy then clipboardOk else ShareLink(enc, t, button).Some?)
  }

  /** The continuation after the share call: the platform side effect and
      `onClose` on success, an alert on failure (of the share call, of the
      encoding or of the clipboard write), and the flag released either way.
      `clipboardOk` is read only by the copy action. */
  function Settle(p: Panel, enc: Encoder, t: Target, button: Platform, recordOk: bool, clipboardOk: bool): Panel
  {
    var done :=
      match button
      case WhatsApp =>
        if recordOk && WhatsAppLink(enc, t.videoUrl).Some? then
          p.(links := p.links + [WhatsAppLink(enc, t.videoUrl).value], closes := p.closes + 1)
        else p.(alerts := p.alerts + [ShareFailedAlert])
      case X =>
        if recordOk && XLink(enc, t.videoUrl).Some? then
          p.(links := p.links + [XLink(enc, t.videoUrl).value], closes := p.closes + 1)
        else p.(alerts := p.alerts + [ShareFailedAlert])
      case Copy =>
        if recordOk && clipboardOk then
          p.(clipboard := p.clipboard + [t.videoUrl], alerts := p.alerts + [CopiedAlert], closes := p.closes + 1)
        else p.(alerts := p.alerts + [CopyFailedAlert]);
    done.(loading := None)
  }

  /** A whole handler run without interruption. */
  function Handle(p: Panel, enc: Encoder, t: Target, button: Platform, recordOk: bool, clipboardOk: bool): Panel
  {
    if p.loading.Some? then p else Settle(Press(p, t, button), enc, t, button, recordOk, clipboardOk)
  }

  /** A handler invoked while another action is in flight returns at once: no
      share call, no close, and `loading` keeps the other action's tag. */
  lemma BusyHandlerIsNoop(p: Panel, enc: Encoder, t: Target, button: Platform, recordOk: bool, clipboardOk: bool)
    requires ButtonsDisabled(p)
    ensures Press(p, t, button) == p
    ensures Handle(p, enc, t, button, recordOk, clipboardOk) == p
  {
  }

  /** From an idle panel a handler first claims the flag with its own tag and
      records exactly one share call; after that every other press is refused
      until the continuation runs. */
  lemma PressClaims(p: Panel, t: Target, button: Platform, t2: Target, other: Platform)
    requires p.loading.None?
    ensures Press(p, t, button).loading == Some(button)
    ensures Press(p, t, button).calls == p.calls + [ShareCall(t.videoId, button)]
    ensures Press(p, t, button).(loading := None, calls := p.calls) == p
    ensures Press(Press(p, t, button), t2, other) == Press(p, t, button)
    ensures ButtonsDisabled(Press(p, t, button))
  {
  }

  /** Whatever the outcome, the flag is released and no share call is added. */
  lemma SettleReleases(p: Panel, enc: Encoder, t: Target, button: Platform, recordOk: bool, clipboardOk: bool)
    ensures Settle(p, enc, t, button, recordOk, clipboardOk).loading.None?
    ensures Settle(p, enc, t, button, recordOk, clipboardOk).calls == p.calls
    ensures !ButtonsDisabled(Settle(p, enc, t, button, recordOk, clipboardOk))
  {
  }

  /** On success `onClose` is called exactly once and the platform effect
      happens: the link for its platform is opened, or the URL is copied and
      the copy is confirmed by an alert. */
  lemma SettleOnSuccess(p: Panel, enc: Encoder, t: Target, button: Platform, recordOk: bool, clipboardOk: bool)
    requires Succeeds(enc, t, button, recordOk, clipboardOk)
    ensures var r := Settle(p, enc, t, button, recordOk, clipboardOk);
      && r.closes == p.closes + 1
      && (button != Copy ==> r.links == p.links + [ShareLink(enc, t, button).value] && r.alerts == p.alerts)
      && (button == Copy ==> r.clipboard == p.clipboard + [t.videoUrl] && r.alerts == p.alerts + [CopiedAlert])
      && (button != Copy ==> r.clipboard == p.clipboard)
      && (button == Copy ==> r.links == p.links)
  {
  }

  /** On any failure, of the share call, of the link's encoding or of the
      clipboard write, one alert is raised, the panel stays open and nothing is opened or copied. */
  lemma SettleOnFailure(p: Panel, enc: Encoder, t: Target, button: Platform, recordOk: bool, clipboardOk: bool)
    requires !Succeeds(enc, t, button, recordOk, clipboardOk)
    ensures var r := Settle(p, enc, t, button, recordOk, clipboardOk);
      && r.closes == p.closes
      && r.alerts == p.alerts + [if button == Copy then CopyFailedAlert else ShareFailedAlert]
      && r.links == p.links
      && r.clipboard == p.clipboard
  {
  }

  /** A share call that succeeds is still reported as a failure when the URL
      cannot be encoded: the alert is raised, no link is opened and the panel
      stays open. */
  lemma EncodingFailureAlerts(p: Panel, enc: Encoder, t: Target, button: Platform)
    requires p.loading.None? && button != Copy
    requires enc(t.videoUrl).None?
    ensures var r := Handle(p, enc, t, button, true, true);
      && r.closes == p.closes
      && r.links == p.links
      && r.alerts == p.alerts + [ShareFailedAlert]
      && r.loading.None?
  {
  }

  /** The copy action writes to the clipboard only after the share call
      succeeded, and only the video URL; the other actions never do. */
  lemma CopyOnlyAfterRecord(p: Panel, enc: Encoder, t: Target, button: Platform, recordOk: bool, clipboardOk: bool)
    ensures var r := Handle(p, enc, t, button, recordOk, clipboardOk);
      r.clipboard != p.clipboard ==>
        && p.loading.None? && button == Copy && recordOk && clipboardOk
        && r.clipboard == p.clipboard + [t.videoUrl]
  {
  }

  /** Every complete handler run leaves the panel idle again, and closes it
      exactly when the run started from an idle panel and succeeded. */
  lemma HandleEndsIdle(p: Panel, enc: Encoder, t: Target, button: Platform, recordOk: bool, clipboardOk: bool)
    requires p.loading.None?
    ensures Handle(p, enc, t, button, recordOk, clipboardOk).loading.None?
    ensures Handle(p, enc, t, button, recordOk, clipboardOk).closes ==
      p.closes + (if Succeeds(enc, t, button, recordOk, clipboardOk) then 1 else 0)
  {
  }

  /** `handleClickOutside`: `onClose` runs only when the panel is mounted and
      the click landed outside it; nothing else changes. */
  function ClickOutside(p: Panel, mounted: bool, targetInside: bool): (r: Panel)
    ensures r.(closes := p.closes) == p
    ensures r.closes == p.closes + (if mounted && !targetInside then 1 else 0)
  {
    if mounted && !targetInside then p.(closes := p.closes + 1) else p
  }

  // ---------------------------------------------------------------- the component

  /** `ShareModal`: the `loading` field and the effects of its handlers. */
  class SharePanel {
    const videoId: VideoId
    const videoUrl: string
    const enc: Encoder
    var loading: Option<Platform>
    var calls: seq<ShareCall>
    var links: seq<string>
    var clipboard: seq<string>
    var alerts: seq<string>
    var closes: nat

    function State(): Panel
      reads this
    {
      Panel(loading, calls, links, clipboard, alerts, closes)
    }

    function ShareTarget(): Target
    {
      Target(videoId, videoUrl)
    }

    constructor (videoId: VideoId, videoUrl: string, enc: Encoder)
      ensures this.videoId == videoId && this.videoUrl == videoUrl && this.enc == enc
      ensures State() == Idle()
    {
      this.videoId := videoId;
      this.videoUrl := videoUrl;
      this.enc := enc;
      loading := None;
      calls := [];
      links := [];
      clipboard := [];
      alerts := [];
      closes := 0;
    }

    /** A handler up to its `await`; `started` is false when it returned at once. */
    method Begin(button: Platform) returns (started: bool)
      modifies this
      ensures started <==> old(loading).None?
      ensures started ==> loading == Some(button)
      ensures State() == Press(old(State()), ShareTarget(), button)
    {
      if loading.Some? {
        return false;
      }
      loading := Some(button);
      calls := calls + [ShareCall(videoId, button)];
      started := true;
    }

    /** A handler after its `await`: its `try`, `catch` and `finally` blocks. */
    method Finish(button: Platform, recordOk: bool, clipboardOk: bool)
      requires loading == Some(button)
      modifies this
      ensures State() == Settle(old(State()), enc, ShareTarget(), button, recordOk, clipboardOk)
    {
      match button {
        case WhatsApp =>
          var link := if recordOk then WhatsAppLink(enc, videoUrl) else None;
          if link.Some? {
            links := links + [link.value];
            closes := closes + 1;
          } else {
            alerts := alerts + [ShareFailedAlert];
          }
        case X =>
          var link := if recordOk then XLink(enc, videoUrl) else None;
          if link.Some? {
            links := links + [link.value];
            closes := closes + 1;
          } else {
            alerts := alerts + [ShareFailedAlert];
          }
        case Copy =>
          if recordOk && clipboardOk {
            clipboard := clipboard + [videoUrl];
            alerts := alerts + [CopiedAlert];
            closes := closes + 1;
          } else {
            alerts := alerts + [CopyFailedAlert];
          }
      }
      loading := None;
    }

    method HandleShareWhatsApp(recordOk: bool)
      modifies this
      ensures State() == Handle(old(State()), enc, ShareTarget(), WhatsApp, recordOk, true)
    {
      var started := Begin(WhatsApp);
      if started {
        Finish(WhatsApp, recordOk, true);
      }
    }

    method HandleShareX(recordOk: bool)
      modifies this
      ensures State() == Handle(old(State()), enc, ShareTarget(), X, recordOk, true)
    {
      var started := Begin(X);
      if started {
        Finish(X, recordOk, true);
      }
    }

    method HandleCopyLink(recordOk: bool, clipboardOk: bool)
      modifies this
      ensures State() == Handle(old(State()), enc, ShareTarget(), Copy, recordOk, clipboardOk)
    {
      var started := Begin(Copy);
      if started {
        Finish(Copy, recordOk, clipboardOk);
      }
    }

    method HandleClickOutside(mounted: bool, targetInside: bool)
      modifies this
      ensures State() == ClickOutside(old(State()), mounted, targetInside)
    {
      if mounted && !targetInside {
        closes := closes + 1;
      }
    }
  }
}
