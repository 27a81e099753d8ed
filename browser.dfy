/** The embedded browser's URL policy: which schemes Miro handles itself,
    and the order in which should_load_url decides whether the browser
    loads a URL or hands it to Miro. */
module Browser {
  import opened Strings

  /** PROTOCOLS_MIRO_HANDLES. */
  const ProtocolsMiroHandles: seq<string> := ["http:", "https:", "ftp:", "feed:", "feeds:", "mailto:"]

  /** The URL starts with one of the handled protocols. */
  predicate HandledScheme(url: string) {
    exists k :: 0 <= k < |ProtocolsMiroHandles| && StartsWith(url, ProtocolsMiroHandles[k])
  }

  /** _should_miro_handle: tries the protocols in turn and stops at the
      first that prefixes the URL. */
  method ShouldMiroHandle(url: string) returns (handled: bool)
    ensures handled <==> HandledScheme(url)
  {
    var k := 0;
    while k < |ProtocolsMiroHandles|
      invariant 0 <= k <= |ProtocolsMiroHandles|
      invariant forall j :: 0 <= j < k ==> !StartsWith(url, ProtocolsMiroHandles[j])
    {
      if StartsWith(url, ProtocolsMiroHandles[k]) {
        return true;
      }
      k := k + 1;
    }
    return false;
  }

  /** Every handled protocol ends its name with ':', so a URL without a
      colon is never one Miro handles. */
  lemma NoColonNotHandled(url: string)
    requires ':' !in url
    ensures !HandledScheme(url)
  {
    forall k | 0 <= k < |ProtocolsMiroHandles|
      ensures !StartsWith(url, ProtocolsMiroHandles[k])
    {
      var p := ProtocolsMiroHandles[k];
      assert p[|p| - 1] == ':';
      if |p| <= |url| {
        assert url[..|p|][|p| - 1] != ':';
      }
    }
  }

  /** Web and feed URLs are handled by Miro; a javascript: link is not. */
  lemma SchemeExamples()
    ensures HandledScheme("http://www.example.com/")
    ensures HandledScheme("feeds://www.example.com/rss")
    ensures !HandledScheme("javascript:void(0)")
  {
    assert StartsWith("http://www.example.com/", ProtocolsMiroHandles[0]);
    assert StartsWith("feeds://www.example.com/rss", ProtocolsMiroHandles[4]);
    var u := "javascript:void(0)";
    forall k | 0 <= k < |ProtocolsMiroHandles|
      ensures !StartsWith(u, ProtocolsMiroHandles[k])
    {
      assert u[0] == 'j';
    }
  }

  /** What should_load_url does besides answering: nothing, send the
      backend a SubscriptionLinkClicked message, or schedule the external
      link handler on the UI thread. */
  datatype Action = NoAction | SubscriptionLinkClicked(url: string) | HandleExternalUrl(url: string)

  /** The answer (load the URL in the browser or not) and the action taken. */
  datatype Decision = Decision(load: bool, action: Action)

  /** The guide page the browser was opened on (guide_info). */
  datatype GuideInfo = GuideInfo(url: string, allowedUrls: seq<string>)

  /** The helpers should_load_url consults. */
  datatype Helpers = Helpers(
    toUni: string -> string,                             // util.toUni
    isSubscribeLink: string -> bool,                     // subscription.is_subscribe_link
    isPartOfGuide: (string, string, seq<string>) -> bool, // guide.isPartOfGuide
    isFeedFilename: string -> bool,                      // filetypes.isFeedFilename
    isAllowedFilename: string -> bool)                   // filetypes.isAllowedFilename

  /** A guide page that is neither a feed nor a media file. */
  predicate GuidePage(h: Helpers, guide: GuideInfo, u: string) {
    h.isPartOfGuide(u, guide.url, guide.allowedUrls) && !h.isFeedFilename(u) && !h.isAllowedFilename(u)
  }

  /** should_load_url: subscribe links go to the backend; guide pages load;
      URLs of schemes Miro does not handle load; all else goes to the
      external link handler. */
  function ShouldLoadUrl(h: Helpers, guide: GuideInfo, url: string): (d: Decision)
    ensures d.action.SubscriptionLinkClicked? <==> h.isSubscribeLink(h.toUni(url))
    ensures d.action.HandleExternalUrl? ==> HandledScheme(h.toUni(url)) && !GuidePage(h, guide, h.toUni(url))
  {
    var u := h.toUni(url);
    if h.isSubscribeLink(u) then Decision(false, SubscriptionLinkClicked(u))
    else if GuidePage(h, guide, u) then Decision(true, NoAction)
    else if !HandledScheme(u) then Decision(true, NoAction)
    else Decision(false, HandleExternalUrl(u))
  }

  /** The cascade, step by step: a subscribe link wins whatever else holds;
      then guide pages; then unhandled schemes; the rest is handed on. */
  lemma DecisionOrder(h: Helpers, guide: GuideInfo, url: string)
    ensures var u := h.toUni(url);
      h.isSubscribeLink(u) ==> ShouldLoadUrl(h, guide, url) == Decision(false, SubscriptionLinkClicked(u))
    ensures var u := h.toUni(url);
      !h.isSubscribeLink(u) && GuidePage(h, guide, u) ==> ShouldLoadUrl(h, guide, url) == Decision(true, NoAction)
    ensures var u := h.toUni(url);
      !h.isSubscribeLink(u) && !GuidePage(h, guide, u) && !HandledScheme(u) ==>
        ShouldLoadUrl(h, guide, url) == Decision(true, NoAction)
    ensures var u := h.toUni(url);
      !h.isSubscribeLink(u) && !GuidePage(h, guide, u) && HandledScheme(u) ==>
        ShouldLoadUrl(h, guide, url) == Decision(false, HandleExternalUrl(u))
  {
  }

  /** The browser is told not to load exactly when Miro takes the URL over,
      and what Miro is given is the converted URL. */
  lemma LoadIffNoAction(h: Helpers, guide: GuideInfo, url: string)
    ensures ShouldLoadUrl(h, guide, url).load <==> ShouldLoadUrl(h, guide, url).action == NoAction
    ensures ShouldLoadUrl(h, guide, url).action != NoAction ==> ShouldLoadUrl(h, guide, url).action.url == h.toUni(url)
  {
  }

  /** A javascript: link that is neither a subscribe link nor a guide page
      is left to the browser. */
  lemma JavascriptLinkLoads(h: Helpers, guide: GuideInfo)
    requires h.toUni("javascript:void(0)") == "javascript:void(0)"
    requires !h.isSubscribeLink("javascript:void(0)")
    ensures ShouldLoadUrl(h, guide, "javascript:void(0)") == Decision(true, NoAction)
  {
    SchemeExamples();
  }
}
