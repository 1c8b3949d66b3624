/** The analytics client: a session id kept in localStorage, a classification
    of the browser environment, and a fire-and-forget POST per event. The
    event id, the clock and `fetch` are parameters; of version extraction
    only whether its pattern is found is modelled. */
module Analytics {
  import opened Wrappers
  import opened Text

  /** The localStorage key of the session id. */
  const SESSION_KEY: string := "davision_session_id"

  datatype EventType = SendMessage | ClickQuickReply | OpenChat | CloseChat | ViewProduct | PageView

  /** An event with its optional data; the data values the widget sends are
      strings. */
  datatype AnalyticsEvent = AnalyticsEvent(eventType: EventType, eventData: Option<map<string, string>>)

  /** The classification part of `DeviceInfo`. */
  datatype DeviceInfo = DeviceInfo(browser: string, os: string, deviceType: string, userAgent: string)

  /** What the page exposes: the user agent and `window.innerWidth`. */
  datatype Navigator = Navigator(userAgent: string, innerWidth: int)

  /** The body of a tracking POST (`TrackingData`, page info left abstract). */
  datatype TrackingData = TrackingData(eventId: string, timestamp: string, sessionId: string,
                                       event: AnalyticsEvent, device: DeviceInfo)

  datatype TrackingRequest = TrackingRequest(url: string, verb: string, contentType: string, body: TrackingData)

  /** A localStorage area: string keys to string values. */
  class KeyValueStorage {
    var items: map<string, string>

    constructor (items: map<string, string>)
      ensures this.items == items
    {
      this.items := items;
    }

    /** `getItem`: `None` for `null`. */
    function GetItem(key: string): (r: Option<string>)
      reads this
      ensures r.Some? <==> key in items
      ensures r.Some? ==> r.value == items[key]
    {
      if key in items then Some(items[key]) else None
    }

    /** `setItem` */
    method SetItem(key: string, value: string)
      modifies this
      ensures items == old(items)[key := value]
    {
      items := items[key := value];
    }
  }

  // ---------------------------------------------------------------------------
  // Classification: each test is a substring test, and the first rule in
  // priority order whose patterns occur wins.

  /** A rule: the name to report when any of the patterns occurs. */
  datatype Rule = Rule(patterns: seq<string>, name: string)

  predicate MatchesAny(ua: string, patterns: seq<string>) {
    patterns != [] && (Contains(ua, patterns[0]) || MatchesAny(ua, patterns[1..]))
  }

  /** The name of the first rule that matches, or the fallback. */
  function FirstMatch(ua: string, rules: seq<Rule>, fallback: string): (r: string)
    ensures (exists i :: 0 <= i < |rules| && MatchesAny(ua, rules[i].patterns)) || r == fallback
    ensures forall i :: (0 <= i < |rules| && MatchesAny(ua, rules[i].patterns)
                         && forall j :: 0 <= j < i ==> !MatchesAny(ua, rules[j].patterns)) ==> r == rules[i].name
  {
    if rules == [] then fallback
    else if MatchesAny(ua, rules[0].patterns) then rules[0].name
    else FirstMatch(ua, rules[1..], fallback)
  }

  /** The browser order: Chrome, Firefox, Safari, Internet Explorer, Edge. */
  const BROWSER_RULES: seq<Rule> := [
    Rule(["Chrome"], "Chrome"),
    Rule(["Firefox"], "Firefox"),
    Rule(["Safari"], "Safari"),
    Rule(["MSIE", "Trident/"], "Internet Explorer"),
    Rule(["Edge"], "Edge")
  ]

  /** The OS order: Windows, Mac, Linux, Android, iPhone or iPad. */
  const OS_RULES: seq<Rule> := [
    Rule(["Windows"], "Windows"),
    Rule(["Mac"], "MacOS"),
    Rule(["Linux"], "Linux"),
    Rule(["Android"], "Android"),
    Rule(["iPhone", "iPad"], "iOS")
  ]

  lemma MatchesOne(ua: string, p: string)
    ensures MatchesAny(ua, [p]) <==> Contains(ua, p)
  {
    assert [p][1..] == [];
  }

  lemma MatchesTwo(ua: string, p: string, q: string)
    ensures MatchesAny(ua, [p, q]) <==> Contains(ua, p) || Contains(ua, q)
  {
    assert [p, q][1..] == [q];
    MatchesOne(ua, q);
  }

  /** Read in order, the browser rules are the chain of tests of the source. */
  lemma BrowserChain(ua: string)
    ensures FirstMatch(ua, BROWSER_RULES, "unknown") ==
      if Contains(ua, "Chrome") then "Chrome"
      else if Contains(ua, "Firefox") then "Firefox"
      else if Contains(ua, "Safari") then "Safari"
      else if Contains(ua, "MSIE") || Contains(ua, "Trident/") then "Internet Explorer"
      else if Contains(ua, "Edge") then "Edge"
      else "unknown"
  {
    var r := BROWSER_RULES;
    MatchesOne(ua, "Chrome");
    MatchesOne(ua, "Firefox");
    MatchesOne(ua, "Safari");
    MatchesTwo(ua, "MSIE", "Trident/");
    MatchesOne(ua, "Edge");
    assert r[1..] == [r[1], r[2], r[3], r[4]];
    assert r[1..][1..] == [r[2], r[3], r[4]];
    assert r[1..][1..][1..] == [r[3], r[4]];
    assert r[1..][1..][1..][1..] == [r[4]];
    assert r[1..][1..][1..][1..][1..] == [];
  }

  /** Read in order, the OS rules are the chain of tests of the source. */
  lemma OsChain(ua: string)
    ensures FirstMatch(ua, OS_RULES, "unknown") ==
      if Contains(ua, "Windows") then "Windows"
      else if Contains(ua, "Mac") then "MacOS"
      else if Contains(ua, "Linux") then "Linux"
      else if Contains(ua, "Android") then "Android"
      else if Contains(ua, "iPhone") || Contains(ua, "iPad") then "iOS"
      else "unknown"
  {
    var r := OS_RULES;
    MatchesOne(ua, "Windows");
    MatchesOne(ua, "Mac");
    MatchesOne(ua, "Linux");
    MatchesOne(ua, "Android");
    MatchesTwo(ua, "iPhone", "iPad");
    assert r[1..] == [r[1], r[2], r[3], r[4]];
    assert r[1..][1..] == [r[2], r[3], r[4]];
    assert r[1..][1..][1..] == [r[3], r[4]];
    assert r[1..][1..][1..][1..] == [r[4]];
    assert r[1..][1..][1..][1..][1..] == [];
  }

  /** The device type the OS branch sets (desktop unless Android, iPhone or
      iPad was the OS match), then corrected to mobile on a narrow window. */
  function DeviceTypeFor(os: string, ua: string, innerWidth: int): string {
    var d := if os == "Android" then "mobile"
             else if os == "iOS" then (if Contains(ua, "iPad") then "tablet" else "mobile")
             else "desktop";
    if d == "desktop" && innerWidth <= 768 then "mobile" else d
  }

  // ---------------------------------------------------------------------------
  // Version extraction: `ua.match(re)![1]` throws a TypeError when `re` does
  // not match, so only whether each pattern matches is modelled.

  predicate IsDigit(c: char) {
    '0' <= c <= '9'
  }

  /** `t` starts with what `(\d+[seps]\d+)` needs: one or more digits, a
      separator from `seps`, and a digit. */
  predicate DigitsSepDigit(t: string, seps: set<char>)
    decreases |t|
  {
    |t| >= 3 && IsDigit(t[0]) && ((t[1] in seps && IsDigit(t[2])) || DigitsSepDigit(t[1..], seps))
  }

  /** `ua.match(/<prefix>(\d+[seps]\d+)/)` is not `null`. */
  predicate VersionAfter(ua: string, prefix: string, seps: set<char>)
    decreases |ua|
  {
    (prefix <= ua && DigitsSepDigit(ua[|prefix|..], seps))
    || (ua != [] && VersionAfter(ua[1..], prefix, seps))
  }

  /** The version pattern of the browser branch taken matches. */
  predicate BrowserVersionFound(ua: string) {
    var b := FirstMatch(ua, BROWSER_RULES, "unknown");
    if b == "Chrome" then VersionAfter(ua, "Chrome/", {'.'})
    else if b == "Firefox" then VersionAfter(ua, "Firefox/", {'.'})
    else if b == "Safari" then VersionAfter(ua, "Version/", {'.'})
    else if b == "Internet Explorer" then VersionAfter(ua, "MSIE ", {'.'}) || VersionAfter(ua, "rv:", {'.'})
    else if b == "Edge" then VersionAfter(ua, "Edge/", {'.'})
    else true
  }

  /** The version pattern of the OS branch taken matches (Linux has none). */
  predicate OsVersionFound(ua: string) {
    var os := FirstMatch(ua, OS_RULES, "unknown");
    if os == "Windows" then VersionAfter(ua, "Windows NT ", {'.'})
    else if os == "MacOS" then VersionAfter(ua, "Mac OS X ", {'.', '_'})
    else if os == "Android" then VersionAfter(ua, "Android ", {'.'})
    else if os == "iOS" then VersionAfter(ua, "OS ", {'_'})
    else true
  }

  /** The TypeError of `match(...)![1]` on a missing version. */
  datatype DeviceInfoError = VersionNotFound

  /** `getDeviceInfo`, written as the source's if/else chains over the locals
      `browser`, `os` and `deviceType`: without a window everything is
      "unknown"; otherwise it throws when the version pattern of the branch
      taken is missing, and else reports the classification. */
  method GetDeviceInfo(nav: Option<Navigator>) returns (info: Result<DeviceInfo, DeviceInfoError>)
    ensures nav.None? ==> info == Success(DeviceInfo("unknown", "unknown", "unknown", "unknown"))
    ensures nav.Some? ==> (info.Success? <==> BrowserVersionFound(nav.value.userAgent)
                                              && OsVersionFound(nav.value.userAgent))
    ensures nav.Some? && info.Success? ==> var ua := nav.value.userAgent;
      var os := FirstMatch(ua, OS_RULES, "unknown");
      info.value == DeviceInfo(FirstMatch(ua, BROWSER_RULES, "unknown"), os,
                               DeviceTypeFor(os, ua, nav.value.innerWidth), ua)
  {
    if nav.None? {
      return Success(DeviceInfo("unknown", "unknown", "unknown", "unknown"));
    }
    var ua := nav.value.userAgent;
    BrowserChain(ua);
    OsChain(ua);
    var browser := "unknown";
    var os := "unknown";
    var deviceType := "desktop";
    var found := true;
    if Contains(ua, "Chrome") {
      browser := "Chrome";
      found := VersionAfter(ua, "Chrome/", {'.'});
    } else if Contains(ua, "Firefox") {
      browser := "Firefox";
      found := VersionAfter(ua, "Firefox/", {'.'});
    } else if Contains(ua, "Safari") {
      browser := "Safari";
      found := VersionAfter(ua, "Version/", {'.'});
    } else if Contains(ua, "MSIE") || Contains(ua, "Trident/") {
      browser := "Internet Explorer";
      found := VersionAfter(ua, "MSIE ", {'.'}) || VersionAfter(ua, "rv:", {'.'});
    } else if Contains(ua, "Edge") {
      browser := "Edge";
      found := VersionAfter(ua, "Edge/", {'.'});
    }
    if !found {
      return Failure(VersionNotFound);
    }
    if Contains(ua, "Windows") {
      os := "Windows";
      found := VersionAfter(ua, "Windows NT ", {'.'});
    } else if Contains(ua, "Mac") {
      os := "MacOS";
      found := VersionAfter(ua, "Mac OS X ", {'.', '_'});
    } else if Contains(ua, "Linux") {
      os := "Linux";
    } else if Contains(ua, "Android") {
      os := "Android";
      found := VersionAfter(ua, "Android ", {'.'});
      deviceType := "mobile";
    } else if Contains(ua, "iPhone") || Contains(ua, "iPad") {
      os := "iOS";
      found := VersionAfter(ua, "OS ", {'_'});
      deviceType := if Contains(ua, "iPad") then "tablet" else "mobile";
    }
    if !found {
      return Failure(VersionNotFound);
    }
    if deviceType == "desktop" && nav.value.innerWidth <= 768 {
      deviceType := "mobile";
    }
    info := Success(DeviceInfo(browser, os, deviceType, ua));
  }

  /** An iPhone agent mentions "like Mac OS X", so it takes the Mac branch,
      never the iOS one; when no "Mac OS X " is followed by a version there,
      `getDeviceInfo` throws. */
  lemma IPhoneTakesMacBranch(ua: string)
    requires Contains(ua, "iPhone") && Contains(ua, "Mac") && !Contains(ua, "Windows")
    ensures FirstMatch(ua, OS_RULES, "unknown") == "MacOS"
    ensures !VersionAfter(ua, "Mac OS X ", {'.', '_'}) ==> !OsVersionFound(ua)
  {
    OsChain(ua);
  }

  /** A user agent that mentions Chrome is reported as Chrome, so never as
      Edge (Chromium Edge agents mention both). */
  lemma ChromeNeverEdge(ua: string)
    requires Contains(ua, "Chrome")
    ensures FirstMatch(ua, BROWSER_RULES, "unknown") == "Chrome"
  {
    BrowserChain(ua);
  }

  /** A user agent that mentions Linux is never reported as Android (every
      Android agent mentions Linux, so the Android branch is reached only by
      agents that do not); without Windows or Mac it is reported as Linux,
      whose device type is desktop unless the window is narrow. */
  lemma LinuxNeverAndroid(ua: string, innerWidth: int)
    requires Contains(ua, "Linux")
    ensures FirstMatch(ua, OS_RULES, "unknown") != "Android"
    ensures !Contains(ua, "Windows") && !Contains(ua, "Mac") ==> FirstMatch(ua, OS_RULES, "unknown") == "Linux"
    ensures DeviceTypeFor(FirstMatch(ua, OS_RULES, "unknown"), ua, innerWidth)
            == if innerWidth <= 768 then "mobile" else "desktop"
  {
    OsChain(ua);
  }

  /** The device types: mobile for the Android and iPhone branches, tablet
      for iPad, otherwise desktop, which a window at most 768 pixels wide
      turns into mobile. Only the widths decide between desktop and mobile,
      never between tablet and anything else. */
  lemma DeviceTypeRules(os: string, ua: string, innerWidth: int)
    ensures DeviceTypeFor(os, ua, innerWidth) in {"mobile", "tablet", "desktop"}
    ensures DeviceTypeFor(os, ua, innerWidth) == "tablet" <==> os == "iOS" && Contains(ua, "iPad")
    ensures DeviceTypeFor(os, ua, innerWidth) == "desktop" <==>
              os != "Android" && os != "iOS" && innerWidth > 768
  {
  }

  /** The analytics client. `storage` is `null` where there is no window. */
  class AnalyticsService {
    var apiEndpoint: Option<string>
    const sessionId: string
    const storage: KeyValueStorage?

    /** The constructor: remembers the storage and obtains the session id. */
    constructor (storage: KeyValueStorage?, freshId: string)
      modifies storage
      ensures this.storage == storage && apiEndpoint.None?
      ensures storage == null ==> sessionId == freshId
      ensures storage != null && SESSION_KEY in old(storage.items) && old(storage.items)[SESSION_KEY] != ""
              ==> sessionId == old(storage.items)[SESSION_KEY] && storage.items == old(storage.items)
      ensures storage != null && !(SESSION_KEY in old(storage.items) && old(storage.items)[SESSION_KEY] != "")
              ==> sessionId == freshId && storage.items == old(storage.items)[SESSION_KEY := freshId]
    {
      this.storage := storage;
      apiEndpoint := None;
      var id := GetOrCreateSessionId(storage, freshId);
      sessionId := id;
    }

    /** `setApiEndpoint` */
    method SetApiEndpoint(endpoint: string)
      modifies this
      ensures apiEndpoint == Some(endpoint)
    {
      apiEndpoint := Some(endpoint);
    }

    /** `trackEvent`: builds the tracking data, which rejects the call when
        `getDeviceInfo` throws, then posts it to the endpoint; without a
        (non-empty) endpoint nothing is sent. A failed POST is swallowed, so
        the outcome of `fetch` does not matter. */
    method TrackEvent(event: AnalyticsEvent, eventId: string, timestamp: string, nav: Option<Navigator>)
      returns (sent: Option<TrackingRequest>, rejected: bool)
      ensures rejected <==> nav.Some? && !(BrowserVersionFound(nav.value.userAgent)
                                           && OsVersionFound(nav.value.userAgent))
      ensures sent.Some? <==> !rejected && apiEndpoint.Some? && apiEndpoint.value != ""
      ensures sent.Some? ==> && sent.value.url == apiEndpoint.value && sent.value.verb == "POST"
                             && sent.value.contentType == "application/json"
                             && sent.value.body.sessionId == sessionId && sent.value.body.event == event
                             && sent.value.body.eventId == eventId
    {
      var device := GetDeviceInfo(nav);
      if device.Failure? {
        return None, true;
      }
      var data := TrackingData(eventId, timestamp, sessionId, event, device.value);
      if apiEndpoint.None? || apiEndpoint.value == "" {
        return None, false;
      }
      sent := Some(TrackingRequest(apiEndpoint.value, "POST", "application/json", data));
      rejected := false;
    }
  }

  /** `getOrCreateSessionId`: a stored non-empty id is reused; otherwise the
      fresh id is stored (when there is storage) and returned. */
  method GetOrCreateSessionId(storage: KeyValueStorage?, freshId: string) returns (id: string)
    modifies storage
    ensures storage == null ==> id == freshId
    ensures storage != null && SESSION_KEY in old(storage.items) && old(storage.items)[SESSION_KEY] != ""
            ==> id == old(storage.items)[SESSION_KEY] && storage.items == old(storage.items)
    ensures storage != null && !(SESSION_KEY in old(storage.items) && old(storage.items)[SESSION_KEY] != "")
            ==> id == freshId && storage.items == old(storage.items)[SESSION_KEY := freshId]
  {
    if storage == null {
      return freshId;
    }
    var stored := storage.GetItem(SESSION_KEY);
    if stored.Some? && stored.value != "" {
      return stored.value;
    }
    storage.SetItem(SESSION_KEY, freshId);
    id := freshId;
  }

  /** Two sessions created over the same storage share one id: the second
      reads what the first wrote, whatever fresh id it was offered. */
  method SessionIdIsStable(storage: KeyValueStorage, freshA: string, freshB: string)
    returns (first: string, second: string)
    modifies storage
    requires freshA != ""
    ensures first == second
  {
    first := GetOrCreateSessionId(storage, freshA);
    second := GetOrCreateSessionId(storage, freshB);
  }
}
