# davision-widget chat core, modelled in Dafny

This project models the core of the davision chat widget. The widget is an embeddable React chatbot. A visitor opens it, types or picks a quick reply, and sees an optimistic "sending" bubble. When the transport settles, that bubble becomes "sent" and a bot reply (possibly with a product carousel) follows. A failed send becomes "error" and can be retried.

The model covers:

- the session controller (`useChat`). Its state is a `ChatSession` class with one `state` field. Each `setState` updater is a pure function on `ChatState`. The asynchronous send is split into its two phases (`SendMessage`, then `ResolveSend`), so clear, toggle and retry can happen in between;
- the message store: one localStorage key, with a loader that repairs entries;
- the two transports: `ChatService`, which posts to an endpoint or returns canned replies, and `ApiService`, which uses a proxy and normalises replies by `response_type`;
- the input box, the message bubble, the product carousel and the quick-reply rows;
- the configuration and theme merges;
- the analytics client's session id and user-agent classification.

`fetch`, the clock, `generateId`/`uuidv4`, `Math.random` and storage failures are parameters (oracles). JSON text is abstract: a stored log is the list of records `JSON.parse` would return.

Modules, one per file:

- `Wrappers`, `Text` and `Js`: JavaScript's `trim`, `includes`, ASCII lower-casing, `||` and truthiness;
- `ChatTypes`, `MessageStorage`, `ChatService`, `ApiService` and `UseChat`;
- `ChatbotInput`, `ChatbotMessageItem`, `ProductCarousel` and `QuickReplies`;
- `Theme`, `Config` and `Analytics`.

## Model

| member | source | states |
|---|---|---|
| Text.TrimStart | src/hooks/useChat.ts:59 | leading whitespace removal: a suffix of the input, everything dropped is whitespace, no leading whitespace remains |
| Text.TrimEnd | src/hooks/useChat.ts:59 | trailing whitespace removal: a prefix of the input, everything dropped is whitespace, no trailing whitespace remains |
| Text.TrimShape | src/components/ChatbotInput/ChatbotInput.tsx:25 | `trim()` removes exactly a whitespace prefix and suffix and leaves no whitespace at either end |
| Text.BlankIffAllWhitespace | src/hooks/useChat.ts:59 | `!text.trim()` holds iff every character is whitespace |
| Text.TrimIdempotent | src/components/ChatbotInput/ChatbotInput.tsx:25 | trimming twice equals trimming once |
| Text.ContainsInside | src/services/api/chatService.ts:75 | `includes` finds a string wherever it is embedded |
| Text.ContainsWitness | src/services/api/chatService.ts:55 | `includes` is true only when the pattern occurs at some index |
| Text.AsciiLower | src/services/api/chatService.ts:55 | lower-casing keeps the length, maps each of A-Z to the letter 32 code points later (a-z) and leaves every other character unchanged |
| Text.NatToString | src/services/storage/messageStorage.ts:27 | the decimal rendering of `Date.now()` is a non-empty digit string |
| Js.Or | src/services/api/apiService.ts:303 | `a \|\| b` is `a` when truthy, else `b` |
| ChatTypes.Ids | src/types/chat.types.ts:1-8 | the id set of a log holds exactly the ids of its messages |
| MessageStorage.TimeRoundTrip | src/services/storage/messageStorage.ts:26 | a valid `Date` survives stringify and reparse; an Invalid Date comes back as the epoch |
| MessageStorage.EncodeAll | src/services/storage/messageStorage.ts:9 | the saved array has one record per message, in order |
| MessageStorage.LegacyId | src/services/storage/messageStorage.ts:27 | the fallback id is never empty |
| MessageStorage.RepairAll | src/services/storage/messageStorage.ts:24-31 | the map succeeds iff no entry is `null`; then one repaired message per entry, in order |
| MessageStorage.LoadFailuresYieldEmpty | src/services/storage/messageStorage.ts:17-20 | no storage, no key, unreadable text or a `null` entry all load as `[]` |
| MessageStorage.LoadOnePerEntry | src/services/storage/messageStorage.ts:24 | otherwise exactly one message per stored entry, each the repair of its entry |
| MessageStorage.RepairDefaults | src/services/storage/messageStorage.ts:25-30 | missing/empty id becomes `legacy-…`, missing text becomes "", non-boolean isUser becomes false, missing or empty status becomes "sent"; products and present values pass through |
| MessageStorage.RoundTrip | src/services/storage/messageStorage.ts:9-31 | saving a well-formed log and loading it returns the same log |
| MessageStorage.LegacyIdsCoincide | src/services/storage/messageStorage.ts:27 | two id-less entries loaded together get the same id, so loaded ids can clash |
| MessageStorage.MessageStore.constructor | src/services/storage/messageStorage.ts:3 | a store over one slot, with or without localStorage |
| MessageStorage.MessageStore.SaveMessages | src/services/storage/messageStorage.ts:6-13 | overwrites the slot with the encoded log; no storage or a failed write leaves it unchanged |
| MessageStorage.MessageStore.GetMessages | src/services/storage/messageStorage.ts:15-35 | returns the decoded slot; every failure gives `[]`; otherwise one message per entry |
| MessageStorage.MessageStore.ClearMessages | src/services/storage/messageStorage.ts:37-44 | removes the key when storage exists, so a following load gives `[]` |
| ChatService.RequestHeaders | src/services/api/chatService.ts:30-34 | Content-Type always present, `Bearer <key>` only for a truthy key, user headers override on collision, no other keys |
| ChatService.MockReplyShape | src/services/api/chatService.ts:52-80 | products iff the lower-cased text contains "dress", and then exactly the two mock products with the dress text; otherwise the text embeds the input; never a follow-up |
| ChatService.BuildRequest | src/services/api/chatService.ts:28-38 | POST to the endpoint, body exactly `{message: text}`, the merged headers |
| ChatService.NoEndpointMeansMock | src/services/api/chatService.ts:23-25 | without an endpoint no request is made and the mock reply is returned |
| ChatService.EndpointExchange | src/services/api/chatService.ts:27-48 | one request; success iff 2xx with a parsed body, returned unchanged; network, status and parse errors reject |
| ApiService.EncodeURIComponent | src/services/api/apiService.ts:222 | the encoding holds only unreserved characters and `%`, and is at least as long as the input |
| ApiService.EncodeUnreservedIsIdentity | src/services/api/apiService.ts:222 | unreserved text is encoded as itself |
| ApiService.OperatingSystem | src/services/api/apiService.ts:227-235 | the answer is one of the six names |
| ApiService.OperatingSystemPriority | src/services/api/apiService.ts:227-235 | first match wins: each of Windows, macOS, Linux, Android and iOS is the answer iff its name occurs and no earlier one does; "Unknown" iff no name occurs; so a UA containing "Linux" is never Android |
| ApiService.DeviceTypeClassification | src/services/api/apiService.ts:237-247 | tablet pattern wins over mobile, Desktop is the fallback, case is ignored |
| ApiService.IPadIsTablet | src/services/api/apiService.ts:239 | any UA mentioning iPad is a Tablet |
| ApiService.NormaliseContract | src/services/api/apiService.ts:303-312 | responseType is `response_type \|\| 0`; products are the samples iff it is exactly 1; the text is fixed by it |
| ApiService.StringOneIsNotCarousel | src/services/api/apiService.ts:303-311 | the string "1" is kept as the type but gets the plain reply |
| ApiService.ServerTextIgnored | src/services/api/apiService.ts:305-312 | the server's own text never changes the reply |
| ApiService.ApiService.constructor | src/services/api/apiService.ts:193-198 | empty URL, the default proxy, only Content-Type, proxy off |
| ApiService.ApiService.SetApiUrl | src/services/api/apiService.ts:200-202 | sets the URL, nothing else changes |
| ApiService.ApiService.SetHeaders | src/services/api/apiService.ts:204-209 | given keys take the given values, all other keys keep theirs, Content-Type is kept |
| ApiService.ApiService.SetCorsProxy | src/services/api/apiService.ts:211-213 | sets the proxy URL, nothing else changes |
| ApiService.ApiService.SetUseProxy | src/services/api/apiService.ts:215-217 | sets the flag, nothing else changes |
| ApiService.ApiService.RequestUrl | src/services/api/apiService.ts:219-225 | proxy prefix plus encoded URL iff the proxy is on with a non-empty URL, else the URL unchanged |
| ApiService.ApiService.RequestHeaders | src/services/api/apiService.ts:278-281 | an Origin header only with the proxy on; other headers unchanged; Content-Type always present |
| ApiService.ApiService.SendMessage | src/services/api/apiService.ts:249-338 | with a URL: one POST to the proxied URL carrying Content-Type; success iff a 2xx status with a parsed non-null body, and then the normalised reply; network error, bad status, unparseable JSON and a `null` body each reject with their own error; without a URL: no request, and the carousel or greeting reply as the coin picks |
| UseChat.WithStatus | src/hooks/useChat.ts:89-91 | same length; messages with the id get the status, all others unchanged |
| UseChat.WithoutId | src/hooks/useChat.ts:155 | keeps exactly the messages whose id differs |
| UseChat.FindById | src/hooks/useChat.ts:152 | found iff the id occurs; the result carries the id and is a message of the log |
| UseChat.FindByIdIsFirst | src/hooks/useChat.ts:152 | the message found is the first one with the id |
| UseChat.WithoutIdAppend | src/hooks/useChat.ts:155 | the filter keeps order: it distributes over concatenation |
| UseChat.WithoutIdAbsent | src/hooks/useChat.ts:155 | an absent id leaves the log as is; a present one shortens it |
| UseChat.WithoutIdKeepsUnique | src/hooks/useChat.ts:155 | removal keeps ids unique |
| UseChat.BlankSendIsNoOp | src/hooks/useChat.ts:59 | whitespace-only text changes nothing |
| UseChat.BeginAppendsOne | src/hooks/useChat.ts:61-74 | one user `sending` message with the untrimmed text appended, earlier messages untouched, loading on, error cleared |
| UseChat.SuccessResolves | src/hooks/useChat.ts:79-97 | only messages with the sent id become `sent`; one bot reply with the response's text and products appended; loading off, error kept |
| UseChat.ReplyAppendedWhenSentMessageGone | src/hooks/useChat.ts:88-97 | the reply is appended even when the sent id has vanished |
| UseChat.FailureResolves | src/hooks/useChat.ts:115-127 | sent message becomes `error`, nothing added or removed, loading off, error text set |
| UseChat.ReplyLandsAfterClear | src/hooks/useChat.ts:88-97 | clearing during a send leaves a log holding just the bot reply |
| UseChat.OverlappingSendsEndLoadingEarly | src/hooks/useChat.ts:69-97 | the first of two overlapping sends to settle ends loading while the other is still `sending` |
| UseChat.WelcomeInjectedOnce | src/hooks/useChat.ts:41-56 | one bot `sent` welcome message is added, after which the welcome is no longer due |
| UseChat.ToggleFlipsOnlyIsOpen | src/hooks/useChat.ts:131 | only isOpen flips; twice is the identity |
| UseChat.ClearIsIdempotent | src/hooks/useChat.ts:145 | empties the log, keeps the other fields, idempotent |
| UseChat.RetryNoOp | src/hooks/useChat.ts:151-153 | unknown id or a bot message: nothing happens |
| UseChat.RetryLaw | src/hooks/useChat.ts:151-162 | every message with the id removed, order kept, error cleared, a fresh `sending` copy of the text at the end |
| UseChat.RetryOfBlankMessageOnlyRemoves | src/hooks/useChat.ts:154-160 | a blank restored user message is removed and nothing is re-sent |
| UseChat.AppendFreshKeepsUnique | src/hooks/useChat.ts:61-71 | appending a message with a fresh id keeps a log's ids unique |
| UseChat.AppendFreshKeepsIdsUnique | src/hooks/useChat.ts:61-71 | with a fresh id, a send or injected message keeps ids unique |
| UseChat.ResolveKeepsIdsUnique | src/hooks/useChat.ts:79-97 | with a fresh reply id, settling keeps ids unique |
| UseChat.WithoutIdKeepsFresh | src/hooks/useChat.ts:155 | the filter keeps an id that was absent absent |
| UseChat.RetryKeepsIdsUnique | src/hooks/useChat.ts:151-162 | with a fresh id, retry keeps ids unique |
| UseChat.ChatSession.constructor | src/hooks/useChat.ts:10-17 | empty closed session; persistMessages defaults to true |
| UseChat.ChatSession.RestoreMessages | src/hooks/useChat.ts:26-33 | with persistence on, a non-empty stored log replaces the messages |
| UseChat.ChatSession.MirrorMessages | src/hooks/useChat.ts:35-39 | with persistence on, a non-empty log is saved; an empty one is never written |
| UseChat.ChatSession.InjectWelcome | src/hooks/useChat.ts:41-56 | appends the welcome exactly when due |
| UseChat.ChatSession.SendMessage | src/hooks/useChat.ts:58-74 | started iff the text is not blank; the state is the begin transition |
| UseChat.ChatSession.ResolveSend | src/hooks/useChat.ts:76-127 | the state follows the chat service's outcome; a follow-up is due iff the reply asks for one |
| UseChat.ChatSession.DeliverFollowUp | src/hooks/useChat.ts:99-113 | appends the fixed follow-up bot message |
| UseChat.ChatSession.ToggleChat | src/hooks/useChat.ts:130-142 | flips isOpen; reports open_chat or close_chat from the old value |
| UseChat.ChatSession.ClearMessages | src/hooks/useChat.ts:144-149 | empties the log; clears the store only with persistence on |
| UseChat.ChatSession.RetryMessage | src/hooks/useChat.ts:151-162 | the retry transition; a new send starts iff a user message with non-blank text had the id |
| ChatbotInput.Truncate | src/components/ChatbotInput/ChatbotInput.tsx:57 | the longest prefix within maxLength |
| ChatbotInput.ButtonMatchesGuard | src/components/ChatbotInput/ChatbotInput.tsx:24 | the button is enabled iff the send guard holds; loading disables both button and field |
| ChatbotInput.CharCountShown | src/components/ChatbotInput/ChatbotInput.tsx:62 | the counter shows iff something was typed and maxLength is not 0 |
| ChatbotInput.SentTextPassesSessionGuard | src/components/ChatbotInput/ChatbotInput.tsx:25-27 | the sent text is trimmed and non-blank, so the session accepts it unchanged |
| ChatbotInput.InputBox.constructor | src/components/ChatbotInput/ChatbotInput.tsx:16-20 | empty field, maxLength 500 by default |
| ChatbotInput.InputBox.OnChange | src/components/ChatbotInput/ChatbotInput.tsx:57 | the field holds the value cut to maxLength, never longer |
| ChatbotInput.InputBox.HandleSend | src/components/ChatbotInput/ChatbotInput.tsx:23-34 | sends the trimmed text once and clears the field iff non-blank and not loading; otherwise nothing |
| ChatbotInput.InputBox.HandleKeyDown | src/components/ChatbotInput/ChatbotInput.tsx:36-41 | Enter without Shift sends as the button would; other keys, and an Enter the guard blocks, leave the field as it is |
| ChatbotMessageItem.RetryButton | src/components/ChatbotMessageItem/ChatbotMessageItem.tsx:27-33 | shown iff text shown, status `error` and onRetry given; passes the message id |
| ChatbotMessageItem.Compact | src/components/ChatbotMessageItem/ChatbotMessageItem.tsx:23 | `filter(Boolean)` keeps exactly the present entries |
| ChatbotMessageItem.CompactAppend | src/components/ChatbotMessageItem/ChatbotMessageItem.tsx:23 | the filter keeps order: it distributes over concatenation |
| ChatbotMessageItem.CompactCons | src/components/ChatbotMessageItem/ChatbotMessageItem.tsx:23 | a present first entry stays first, an absent one is dropped |
| ChatbotMessageItem.ClassList | src/components/ChatbotMessageItem/ChatbotMessageItem.tsx:18-23 | base class first, exactly one of user/bot, error iff `error`, has-products iff the carousel shows |
| ChatbotMessageItem.ClassOrder | src/components/ChatbotMessageItem/ChatbotMessageItem.tsx:18-23 | the class list is exactly base, sender, then error and products when they apply, in that order |
| ChatbotMessageItem.UserMessagesShowNoCarousel | src/components/ChatbotMessageItem/ChatbotMessageItem.tsx:15 | a user message never shows products |
| ChatbotMessageItem.BlankTextHidesRetry | src/components/ChatbotMessageItem/ChatbotMessageItem.tsx:16-30 | whitespace-only text hides the text block and the retry button |
| ChatbotMessageItem.RetryButtonResendsItsMessage | src/components/ChatbotMessageItem/ChatbotMessageItem.tsx:33 | with unique ids, the button removes its own user message and re-sends its text |
| ChatbotMessageItem.BotRetryIsNoOp | src/components/ChatbotMessageItem/ChatbotMessageItem.tsx:30-33 | with unique ids, a bot error message's retry does nothing |
| ProductCarousel.Next | src/components/ProductCarousel/ProductCarousel.tsx:18-22 | stays in [0, n); equals (i + 1) mod n |
| ProductCarousel.Prev | src/components/ProductCarousel/ProductCarousel.tsx:12-16 | stays in [0, n); equals (i - 1) mod n |
| ProductCarousel.NextTimes | src/components/ProductCarousel/ProductCarousel.tsx:18-22 | repeated presses stay in range |
| ProductCarousel.Wraps | src/components/ProductCarousel/ProductCarousel.tsx:14-20 | next wraps n-1 to 0; previous wraps 0 to n-1 |
| ProductCarousel.NextPrevInverse | src/components/ProductCarousel/ProductCarousel.tsx:12-22 | previous and next undo each other |
| ProductCarousel.NextTimesIsRotation | src/components/ProductCarousel/ProductCarousel.tsx:18-22 | k presses advance by k, wrapping once |
| ProductCarousel.FullTurnReturns | src/components/ProductCarousel/ProductCarousel.tsx:18-22 | n presses return to the start |
| ProductCarousel.ExactlyOneActive | src/components/ProductCarousel/ProductCarousel.tsx:35 | exactly one item is active |
| ProductCarousel.HiddenControlsWouldBeIdle | src/components/ProductCarousel/ProductCarousel.tsx:58 | the buttons and dots show iff there are two or more products; with one product next and previous would keep the index, with more each moves it |
| ProductCarousel.Carousel.constructor | src/components/ProductCarousel/ProductCarousel.tsx:10 | the index starts at 0 |
| ProductCarousel.Carousel.HandleNext | src/components/ProductCarousel/ProductCarousel.tsx:18-22 | the index advances cyclically and stays in range |
| ProductCarousel.Carousel.HandlePrevious | src/components/ProductCarousel/ProductCarousel.tsx:12-16 | the index steps back cyclically and stays in range |
| ProductCarousel.Carousel.SelectDot | src/components/ProductCarousel/ProductCarousel.tsx:85 | dot k makes item k the active one |
| QuickReplies.RepliesOf | src/components/QuickReplies/QuickReplies.tsx:25 | an omitted prop gives the five defaults |
| QuickReplies.FirstRow | src/components/QuickReplies/QuickReplies.tsx:30 | the first min(2, n) replies |
| QuickReplies.SecondRow | src/components/QuickReplies/QuickReplies.tsx:32 | replies 2 up to min(5, n) |
| QuickReplies.RowsPartitionFirstFive | src/components/QuickReplies/QuickReplies.tsx:30-32 | the rows concatenated are the first min(5, n) replies in order; second row shown iff n > 2 |
| QuickReplies.DefaultRows | src/components/QuickReplies/QuickReplies.tsx:16-22 | the defaults split two and three |
| QuickReplies.Select | src/components/QuickReplies/QuickReplies.tsx:36-58 | passes exactly the reply's text and reports a click_quick_reply event with its id and text |
| Theme.Overlay | src/styles/theme.ts:18 | spread: override keys win, other base keys keep, no extra keys |
| Theme.CreateTheme | src/styles/theme.ts:3-19 | no custom theme gives the default; supplied keys win; other default keys keep their values |
| Theme.CreatedThemeKeys | src/styles/theme.ts:4-16 | messageColors present iff supplied; every default key present |
| Theme.FontSizeReplacedWholesale | src/styles/theme.ts:11-18 | a supplied fontSize replaces the default group entirely |
| Config.CreateConfig | src/config/default.config.ts:43-65 | user options override defaults, absent ones keep them; service gets the user's endpoint, key and headers |
| Config.MergedTheme | src/config/default.config.ts:58-64 | no user theme gives the default theme; otherwise a one-level overlay |
| Config.GroupsNotDeepMerged | src/config/default.config.ts:60-63 | a user messageColors group replaces the default one wholesale |
| Config.NotableDefaults | src/config/default.config.ts:30-34 | defaults: persistMessages false, useProxy true, maxMessageLength 500 |
| Config.NoServiceOptionsMeansMock | src/config/default.config.ts:49-56 | without endpoint, key or headers the service gets none |
| Analytics.KeyValueStorage.GetItem | src/services/analytics/analyticsService.ts:59 | the stored value, `null` when absent |
| Analytics.KeyValueStorage.SetItem | src/services/analytics/analyticsService.ts:63 | stores one key |
| Analytics.FirstMatch | src/services/analytics/analyticsService.ts:88-121 | the first matching rule's name, else the fallback |
| Analytics.BrowserChain | src/services/analytics/analyticsService.ts:88-103 | the browser rules read as the source's test chain |
| Analytics.OsChain | src/services/analytics/analyticsService.ts:105-121 | the OS rules read as the source's test chain |
| Analytics.GetDeviceInfo | src/services/analytics/analyticsService.ts:67-137 | no window: all "unknown"; otherwise it throws iff the version pattern of the browser or OS branch taken does not match, and else browser and OS are the first-match results and the device type follows the OS branch and the width rule |
| Analytics.IPhoneTakesMacBranch | src/services/analytics/analyticsService.ts:105-121 | an iPhone agent mentioning Mac takes the MacOS branch, never iOS, and throws when no "Mac OS X " is followed by a version |
| Analytics.ChromeNeverEdge | src/services/analytics/analyticsService.ts:88-103 | a UA containing Chrome is Chrome, never Edge |
| Analytics.LinuxNeverAndroid | src/services/analytics/analyticsService.ts:105-116 | a UA containing Linux is never Android; it is desktop unless the width is at most 768 |
| Analytics.DeviceTypeRules | src/services/analytics/analyticsService.ts:123-125 | tablet iff iOS with iPad; desktop iff not Android/iOS and wider than 768 |
| Analytics.AnalyticsService.constructor | src/services/analytics/analyticsService.ts:46-50 | the session id is obtained once, at construction |
| Analytics.AnalyticsService.SetApiEndpoint | src/services/analytics/analyticsService.ts:52-54 | sets the endpoint |
| Analytics.AnalyticsService.TrackEvent | src/services/analytics/analyticsService.ts:157-180 | rejects, sending nothing, iff device-info version extraction throws (before the endpoint is tested); otherwise one POST carrying the session id and the event iff the endpoint is truthy |
| Analytics.GetOrCreateSessionId | src/services/analytics/analyticsService.ts:56-65 | no storage: the fresh id, nothing stored; a stored non-empty id is reused unchanged; otherwise the fresh id is stored and returned |
| Analytics.SessionIdIsStable | src/services/analytics/analyticsService.ts:59-64 | a second call over the same storage returns the first call's id |

## Left out

- `src/main.tsx`, `src/dev.tsx`, `public/embed.js` and `public/widget-dev.js` are not part of this model. They are DOM, iframe and script bootstrapping.
- The presentation-only files are not part of this model: the styles, the icons, header, footer and button components, ChatbotMessages (scrolling), ChatContext, the widget composition, and the legacy widget prototypes.
- `RequestLogger` in apiService.ts is not modelled. It is console logging with floating-point timing.
- `setTimeout` delays are not modelled. The follow-up is a later `DeliverFollowUp` call, allowed once `ResolveSend` reports it due. The mock replies resolve at once.
- Interleavings beyond the two-phase send are not modelled.
- Real `fetch`, `JSON.stringify` and `JSON.parse` are not modelled. Transports take the fetch outcome as a parameter, and the store holds parsed records.
- A stored `text`, `id` or `status` that is a truthy non-string is not modelled. The loader would keep such a value; here every such property is a string or absent.
- A stored `timestamp` is modelled as absent, `null` or a valid date. A non-date string reads as absent, which gives the same Invalid Date.
- Keys that a stored record carries beyond the `Message` fields are dropped by the model. The spread in the loader would keep them.
- `Date.now()` is read once per load and passed in as `now`.
- `UseChat.ChatSession.ToggleChat` does not send anything. It returns the analytics event it would send, and the POST itself is `Analytics.AnalyticsService.TrackEvent`.
- `ChatState.isOffline` and the `buttonLabel` argument of `ChatActions.sendMessage` are not modelled. `useChat` neither reads nor sets them.
- Version extraction in `getDeviceInfo` is modelled only as whether each pattern matches, since a miss throws. The version text itself is not modelled, nor are screen resolution, language and page info.
- `Analytics.AnalyticsService.TrackEvent`: the rejection is returned as a `rejected` flag. What the caller does with the rejected promise is not modelled.
- `Analytics.GetOrCreateSessionId`: a `setItem` that throws (quota exceeded, storage disabled) is not modelled. The source does not catch it, so the analytics constructor would throw; in the model every storage write succeeds.
- `toLowerCase` and the `/i` flag are modelled as ASCII case folding. This is exact for the patterns tested ("dress", "tablet", "ipad", …) but not for arbitrary non-ASCII text.
- String lengths count Unicode scalar values, not UTF-16 code units. This affects the `maxLength` truncation of astral characters only.
- Numbers are integers. `NaN` and fractional `response_type` values are not modelled.
- `ChatbotInput.Truncate`: a negative `maxLength` is not modelled. `slice(0, -k)` would drop characters from the end.
- `Config.CreateConfig`: an option given explicitly as `undefined` is treated as absent. The spread would overwrite the default with `undefined`.
- `Config.CreateConfig`: a `theme` given as a string is not modelled. Spreading it would add index keys.
- `Theme.CreateTheme`: a key given explicitly as `undefined` is treated as absent. The spread would overwrite the default with `undefined`.
- `ProductCarousel.Carousel`: the product list is fixed for a mounted carousel. A later, shorter list can leave `currentIndex` out of range, and that case is not modelled.
- `UseChat.ChatSession.ResolveSend`: the reply body of an endpoint is taken as already shaped like a `ChatResponse`. A body without `text`, which would yield an `undefined` text, is not modelled.
- `UseChat`: `toggleChat` and `retryMessage` read the state of the last render, while their updaters read the newest state. The model uses one state for both, so every action sees the state left by the previous one.
