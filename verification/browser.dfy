/** Browser detection for the layout (`useBrowser`): the browser family and
    whether the device is mobile, read from the user-agent string and the
    window width once the page has mounted.
 */
module Browser {
  import opened Wrappers
  import opened Strings

  datatype BrowserType = Chromium | Firefox | Safari | Unknown

  /** `type` in the hook's result is `browserType` here. */
  datatype BrowserInfo = BrowserInfo(
    browserType: BrowserType,
    isChromium: bool,
    isFirefox: bool,
    isSafari: bool,
    isDesktop: bool,
    isMobile: bool)

  /** Windows narrower than this many pixels count as mobile. */
  const MobileBreakpoint: int := 768

  /** What the hook returns before detection has run. */
  const InitialInfo := BrowserInfo(Unknown, false, false, false, true, false)

  /** The family, tested on the lowered user agent in a fixed order:
      Firefox first; then Safari, unless the string also names Chrome or
      Chromium (Chrome's own user agent mentions Safari); then any
      Chromium-based browser; otherwise unknown. */
  function DetectBrowser(userAgent: string): (t: BrowserType)
    ensures var ua := Lower(userAgent);
      && (t == Firefox <==> Contains(ua, "firefox"))
      && (t == Safari <==>
            !Contains(ua, "firefox") && Contains(ua, "safari")
            && !Contains(ua, "chrome") && !Contains(ua, "chromium"))
      && (t == Chromium ==>
            Contains(ua, "chrome") || Contains(ua, "chromium") || Contains(ua, "edg")
            || Contains(ua, "opr") || Contains(ua, "brave"))
      && (t == Unknown ==>
            !Contains(ua, "chrome") && !Contains(ua, "chromium") && !Contains(ua, "edg")
            && !Contains(ua, "opr") && !Contains(ua, "brave") && !Contains(ua, "firefox"))
  {
    var ua := Lower(userAgent);
    if Contains(ua, "firefox") then Firefox
    else if Contains(ua, "safari") && !Contains(ua, "chrome") && !Contains(ua, "chromium") then Safari
    else if Contains(ua, "chrome") || Contains(ua, "chromium") || Contains(ua, "edg")
         || Contains(ua, "opr") || Contains(ua, "brave") then Chromium
    else Unknown
  }

  /** Classification ignores case: raising or lowering the user agent does
      not change the family. */
  lemma DetectionIgnoresCase(userAgent: string)
    ensures DetectBrowser(Lower(userAgent)) == DetectBrowser(userAgent)
    ensures DetectBrowser(Upper(userAgent)) == DetectBrowser(userAgent)
  {
    LowerIdempotent(userAgent);
    LowerOfUpper(userAgent);
  }

  /** Any user agent naming Chrome, and not Firefox, is classified as
      Chromium, whatever else it mentions. */
  lemma ChromeIsChromium(userAgent: string)
    requires Contains(Lower(userAgent), "chrome") && !Contains(Lower(userAgent), "firefox")
    ensures DetectBrowser(userAgent) == Chromium
  {
  }

  /** Mobile: a phone or tablet keyword in the lowered user agent, or a
      window narrower than the breakpoint. `innerWidth` is `None` where
      there is no window. */
  function DetectMobile(userAgent: string, innerWidth: Option<int>): (mobile: bool)
    ensures innerWidth.Some? && innerWidth.value < MobileBreakpoint ==> mobile
    ensures !mobile ==>
      var ua := Lower(userAgent);
      !Contains(ua, "mobile") && !Contains(ua, "android") && !Contains(ua, "iphone")
      && !Contains(ua, "ipad") && !Contains(ua, "ipod")
    ensures mobile && (innerWidth.None? || innerWidth.value >= MobileBreakpoint) ==>
      var ua := Lower(userAgent);
      Contains(ua, "mobile") || Contains(ua, "android") || Contains(ua, "iphone")
      || Contains(ua, "ipad") || Contains(ua, "ipod")
  {
    var ua := Lower(userAgent);
    Contains(ua, "mobile") || Contains(ua, "android") || Contains(ua, "iphone")
    || Contains(ua, "ipad") || Contains(ua, "ipod")
    || (innerWidth.Some? && innerWidth.value < MobileBreakpoint)
  }

  /** The flags agree with the family, and desktop is the opposite of
      mobile. */
  predicate Consistent(info: BrowserInfo) {
    && info.isChromium == (info.browserType == Chromium)
    && info.isFirefox == (info.browserType == Firefox)
    && info.isSafari == (info.browserType == Safari)
    && info.isDesktop == !info.isMobile
  }

  /** The state the effect sets. */
  function Detect(userAgent: string, innerWidth: Option<int>): (info: BrowserInfo)
    ensures Consistent(info)
    ensures info.browserType == DetectBrowser(userAgent)
    ensures info.isMobile == DetectMobile(userAgent, innerWidth)
  {
    var t := DetectBrowser(userAgent);
    var mobile := DetectMobile(userAgent, innerWidth);
    BrowserInfo(t, t == Chromium, t == Firefox, t == Safari, !mobile, mobile)
  }

  function Count(b: bool): nat {
    if b then 1 else 0
  }

  /** In every state the hook can return, at most one family flag is set
      and exactly one of desktop and mobile holds. */
  lemma FlagsExclusive(userAgent: string, innerWidth: Option<int>, detected: bool)
    ensures var info := if detected then Detect(userAgent, innerWidth) else InitialInfo;
      && Count(info.isChromium) + Count(info.isFirefox) + Count(info.isSafari) <= 1
      && Count(info.isDesktop) + Count(info.isMobile) == 1
  {
  }
}
