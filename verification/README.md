# Wedding invitation: a Dafny model of its page logic

The site is a one-page wedding invitation written with Next.js. One
configuration object, `WEDDING_DATA`, holds the couple, the schedule, the
love story, the gallery, the gift details, the RSVP settings and the footer.
The project models the logic the page runs on that configuration:

- the hero countdown and its two-digit display;
- the asset preloader (`src/utils/assetCache.ts`), in five parts:
  - which URLs it collects and in what order;
  - how each URL is classified for its loader;
  - progress reporting;
  - the `localStorage` flag;
  - the shape of the shipped gallery, which the preloader does not expect;
- the schedule's date parser (the regular expression
  `(\d+)\w*\s+(\w+)\s+(\d+)`) and its one-line title;
- the gift section: its two toggling tabs, the copy-to-clipboard buttons and
  their "copied" check mark;
- the RSVP form and its wish list;
- the navigation bar: its scroll threshold, its mobile menu, its initials and
  links;
- the footer: its monogram, copyright names, links and city;
- the splash screen's guest name, read from the `to` query parameter. This
  needs `decodeURIComponent` and `encodeURIComponent` as the URI handling
  functions of ECMA-262 define them. They are modelled in `Uri`.
- the background-music player's state machine.

The preloader is modelled as its module defines it, but nothing on this site
runs it. `src/app/page.tsx` only composes the sections. The one use of
`src/utils/assetCache.ts` is `isAssetsCached` in the music player
(src/components/MusicPlayer.tsx:6 and 22). So `getAllAssetUrls`,
`preloadAllAssets` and `markAssetsCached` are never called, and the site
itself never writes the flag the music player reads. The returning-visitor
autoplay therefore happens only when the flag was stored some other way.

Modules:

| module | file |
|---|---|
| `Wrappers` | `wrappers.dfy` |
| `Text` | `text.dfy` |
| `Config` | `config.dfy` |
| `ShippedData` | `shipped_data.dfy` |
| `Countdown` | `countdown.dfy` |
| `AssetCache` | `asset_cache.dfy` |
| `Schedule` | `schedule.dfy` |
| `Gift` | `gift.dfy` |
| `Rsvp` | `rsvp.dfy` |
| `Navbar` | `navbar.dfy` |
| `Footer` | `footer.dfy` |
| `Uri` | `uri.dfy` |
| `Splash` | `splash.dfy` |
| `Music` | `music.dfy` |

Conventions:

- Every React state transition is a pure function from state to state.
- Anything the browser decides is a parameter:
  - the clock;
  - the scroll position;
  - the order in which loads settle;
  - whether `play()` is allowed;
  - the query parameter.

## Model

| member | source | states |
|---|---|---|
| Countdown.CalculateTimeLeft | src/components/Hero.tsx:28-41 | a target already reached shows all zeros; hours stay below 24, and minutes and seconds below 60 |
| Countdown.Decomposition | src/components/Hero.tsx:32-39 | for a future target, days/hours/minutes/seconds recombine to exactly the whole seconds remaining, and days are whole days remaining |
| Countdown.SubSecondShowsZero | src/components/Hero.tsx:32-39 | less than a second before the target the display already reads all zeros |
| Countdown.DaysUnbounded | src/components/Hero.tsx:34 | days are not capped: any whole number of days is shown as such |
| Countdown.Monotonic | src/components/Hero.tsx:28-41 | a later target never shows less time |
| Countdown.OneSecondTick | src/components/Hero.tsx:30-39 | while at least a second is left, one second of the interval timer takes exactly one second off the displayed total, the last tick from one to zero included |
| Countdown.DisplayShape | src/components/Hero.tsx:241 | `padStart(2, "0")` gives at least two digits, which read back as the value; single digits get a leading zero |
| Text.ParseNatToString | src/components/Hero.tsx:241 | the decimal rendering of a number parses back to the number |
| Text.NatToStringInjective | src/components/RSVP.tsx:80 | distinct numbers (such as timestamps used as ids) render to distinct strings |
| AssetCache.GetAllAssetUrls | src/utils/assetCache.ts:10-43 | the URLs collected are the truthy fields, in the order hero, couple, schedule, love story, gallery, footer, music; all are non-empty; at most 8 + 2·events + images of them |
| AssetCache.CollectSchedule | src/utils/assetCache.ts:22-25 | the schedule loop pushes each event's main image then its detail image when present, in schedule order |
| AssetCache.CollectGallery | src/utils/assetCache.ts:32-34 | the gallery loop pushes every image's `src` in order |
| AssetCache.CandidatesBySection | src/utils/assetCache.ts:10-43 | the list is the concatenation of the six sections' contributions |
| AssetCache.PresentAppend | src/utils/assetCache.ts:10-43 | skipping empty fields commutes with concatenation, so each section contributes independently |
| AssetCache.NoDeduplication | src/utils/assetCache.ts:10-43 | nothing is deduplicated: a URL appears once per field that holds it |
| AssetCache.CollectionEnds | src/utils/assetCache.ts:14-15 | the hero video comes first when set; the music URL comes last when configured (line 40) |
| AssetCache.GalleryAllPresent | src/utils/assetCache.ts:32-34 | for an array of images, the gallery contributes exactly their `src`s |
| AssetCache.ShippedGalleryThrows | src/data.ts:80-94 | the shipped gallery is an object with a title and an image list, and calling `forEach` on it throws a `TypeError` |
| AssetCache.GalleryUrlsOfObject | src/utils/assetCache.ts:32-34 | the corrected collection reads the object's image list and yields every tile's `src`, one per tile, in order |
| AssetCache.ShippedGalleryCollected | src/data.ts:80-94 | the corrected collection succeeds on the shipped gallery |
| AssetCache.TwoEventUrls | src/utils/assetCache.ts:22-25 | two events, the first with a detail image and the second without, contribute three URLs in order |
| AssetCache.ShapeUrls | src/utils/assetCache.ts:10-43 | a configuration shaped like the shipped one yields twenty URLs: the hero video first, the love-story video eighth, the last gallery image then the footer background last |
| AssetCache.CollectShape | src/utils/assetCache.ts:10-43 | for that shape the collection equals those twenty URLs |
| AssetCache.ShippedValueCollects | src/data.ts:1-126 | the shipped configuration, with its gallery rewritten in the declared array shape, agrees with the sections the collector reads |
| AssetCache.ShippedHasShape | src/data.ts:10-125 | the shipped data, with its gallery rewritten in the declared array shape, has that shape; the hero and love-story videos are the same file, and the last gallery image is the footer background |
| AssetCache.ShippedCollection | src/utils/assetCache.ts:10-43 | the shipped data, with its gallery rewritten in the declared array shape, collects twenty URLs; positions 1 and 8 both hold the video, and positions 19 and 20 both hold the footer background |
| AssetCache.SearchFrom | src/utils/assetCache.ts:101-107 | the scan finds a match exactly when the extension pattern matches at or after the start position |
| AssetCache.Classify | src/utils/assetCache.ts:101-107 | video iff a video extension (case-insensitive, followed by `?` or the end) matches; audio iff only an audio one does; image otherwise |
| AssetCache.ClassifyVideoExamples | src/utils/assetCache.ts:101 | the shipped hero video (`.mp4`) and an upper-case `.MOV` are videos |
| AssetCache.ClassifyAudioExample | src/utils/assetCache.ts:103 | an `.mp3` followed by a query string is audio |
| AssetCache.ClassifyVideoPrecedence | src/utils/assetCache.ts:101-104 | when both a video and an audio extension match, video wins |
| AssetCache.ClassifyImageExample | src/utils/assetCache.ts:101-107 | an extension not followed by `?` or the end does not count, so the URL falls back to image |
| AssetCache.MarkAssetsCached | src/utils/assetCache.ts:52-56 | afterwards the key holds "true"; no other key is added and every other entry keeps its value; nothing happens without a window |
| AssetCache.ClearAssetsCache | src/utils/assetCache.ts:121-125 | removes only the key; does nothing without a window |
| AssetCache.CachedFlagLifecycle | src/utils/assetCache.ts:46-49 | the flag reads true after a mark and false after a clear; it is false without a window; only the exact string "true" counts |
| AssetCache.PreloadAllAssets | src/utils/assetCache.ts:91-118 | each URL gets the loader its class picks; failures count like successes; progress is reported 1..n of n in settling order whatever the order; the flag is stored at the end |
| Schedule.RunEndSpec | src/components/Schedule.tsx:43 | a greedy run of one character class ends at the first character outside it |
| Schedule.MatchAtSound | src/components/Schedule.tsx:43 | the matcher succeeds at a position iff the pattern `(\d+)\w*\s+(\w+)\s+(\d+)` matches there |
| Schedule.MatchAtWellFormed | src/components/Schedule.tsx:43-49 | a match's day and year are non-empty digit strings and its month a non-empty word |
| Schedule.MatchAtCaptures | src/components/Schedule.tsx:43-49 | the captured day, month and year are the maximal runs the pattern describes |
| Schedule.FirstSome | src/components/Schedule.tsx:43 | the first successful attempt in order, or none when every attempt fails |
| Schedule.ParseDateNoMatch | src/components/Schedule.tsx:51 | the empty parts come back exactly when the pattern matches nowhere |
| Schedule.ParseDateLeftmost | src/components/Schedule.tsx:44-50 | otherwise the parts are those of the leftmost match, and they are well formed |
| Schedule.ParseSkipsDigitFreePrefix | src/components/Schedule.tsx:43 | no match can start before the first digit |
| Schedule.ParseShippedDate | src/data.ts:43 | "14th July 2026" gives day "14", month "July", year "2026" |
| Schedule.ParseDateAfterText | src/components/Schedule.tsx:43 | a date preceded by non-digit text parses the same |
| Schedule.ReplaceFirst | src/components/Schedule.tsx:90 | a string pattern replaces only its first occurrence and keeps every other character |
| Schedule.DisplayTitleRemovesOneBreak | src/components/Schedule.tsx:111 | the displayed title has exactly one line break fewer when it had any, and is unchanged otherwise |
| Schedule.DisplayTitleFirstBreak | src/components/Schedule.tsx:111 | the first break becomes a space and later breaks stay |
| Schedule.ShippedFirstTitle | src/data.ts:44 | "Akad\nNikah" shows as "Akad Nikah" |
| Schedule.ShippedSecondTitle | src/data.ts:53 | "Ceremony &\nReception" shows as "Ceremony & Reception" |
| Gift.ToggleBank | src/components/Gift.tsx:59 | the transfer button closes its tab when it is open and opens it (closing the other) otherwise |
| Gift.ToggleAddress | src/components/Gift.tsx:69-71 | the address button closes its tab when it is open and opens it otherwise |
| Gift.Panels | src/components/Gift.tsx:83-129 | at most one panel shows, and it is the active tab's |
| Gift.TrailingRun | src/components/Gift.tsx:59-71 | the count of identical clicks at the end of the sequence, bounded by a different click or the start |
| Gift.ClicksDecideTab | src/components/Gift.tsx:59-71 | from the closed state, a tab is open iff the run of clicks on its button at the end is odd |
| Gift.StripWhitespace | src/components/Gift.tsx:107 | `replace(/\s/g, "")` leaves no JavaScript whitespace and changes nothing in a string without any |
| Gift.StripWhitespaceAppend | src/components/Gift.tsx:107 | stripping distributes over concatenation |
| Gift.StripWhitespaceKeepsCounts | src/components/Gift.tsx:107 | every other character keeps its number of occurrences |
| Gift.StripWhitespaceIdempotent | src/components/Gift.tsx:107 | stripping twice is stripping once |
| Gift.StripDigitGroups | src/components/Gift.tsx:107 | digit groups separated by spaces are copied as one number |
| Gift.ShippedAccountNumber | src/data.ts:101 | "123 456 7890" is copied as "1234567890" |
| Gift.AddressCopyText | src/components/Gift.tsx:147 | the copied address is the street, ", ", then the city |
| Gift.CopyIdInjective | src/components/Gift.tsx:108-148 | the ids `acc<i>` and `addr` name distinct buttons: equal ids mean the same button |
| Gift.Copy | src/components/Gift.tsx:15-19 | a copy writes the clipboard, marks its button and schedules one reset; the tab is untouched |
| Gift.CopyAccount | src/components/Gift.tsx:105-110 | an account button copies its number without whitespace and marks `acc<i>` |
| Gift.CopyAddress | src/components/Gift.tsx:145-150 | the address button copies the address text and marks `addr` |
| Gift.TimerFires | src/components/Gift.tsx:18 | a due reset clears the check mark whichever button it was for |
| Gift.ClickTab | src/components/Gift.tsx:59-71 | tab clicks leave the clipboard and the check mark alone |
| Gift.OneCheckAtATime | src/components/Gift.tsx:113-153 | at most one button shows the check mark |
| Gift.EarlierTimerClearsLaterCopy | src/components/Gift.tsx:18 | the timer of an earlier copy clears the check mark of a later copy while that copy's own reset is still pending |
| Rsvp.InitialState | src/components/RSVP.tsx:18-50 | three wishes to start with, not submitted, guest options 1 to 4 |
| Rsvp.EditName | src/components/RSVP.tsx:44-49 | typing a name changes only the name |
| Rsvp.EditMessage | src/components/RSVP.tsx:44-49 | typing a message changes only the message |
| Rsvp.SelectAttendance | src/components/RSVP.tsx:170-171 | choosing attendance changes only the attendance |
| Rsvp.SelectGuests | src/components/RSVP.tsx:193-196 | while the select is enabled, a guest count of 1 to 4 changes only the count |
| Rsvp.Submit | src/components/RSVP.tsx:77-88 | the new wish goes first with the form's name, message and attendance, "Just now", and the timestamp's decimal digits as id; the old list follows unchanged; the form stays |
| Rsvp.Reset | src/components/RSVP.tsx:90-93 | the form returns to its initial values and the wish list stays |
| Rsvp.GuestsNotCarried | src/components/RSVP.tsx:79-85 | the guest count never reaches the wish list |
| Rsvp.WriteSubmitReset | src/components/RSVP.tsx:77-93 | writing, sending and resetting leaves an empty form and one more wish that carries what was written |
| Rsvp.NewestFirst | src/components/RSVP.tsx:86 | two submissions list the later one first |
| Rsvp.CountLabel | src/components/RSVP.tsx:241 | the label is the decimal count of wishes followed by " Messages" |
| Rsvp.Badge | src/components/RSVP.tsx:271-273 | "Will Attend" iff attending, "Cannot Attend" iff not |
| Rsvp.CountAfterSubmit | src/components/RSVP.tsx:241 | after a submission the label counts one more |
| Rsvp.InitialCount | src/components/RSVP.tsx:18-42 | the page opens with "3 Messages" |
| Navbar.Hrefs | src/components/Navbar.tsx:13-18 | the link targets, one per item, in order |
| Navbar.NavItemsTargetSections | src/components/Navbar.tsx:13-18 | each link is `#` plus the id of a section, in page order (src/components/Couple.tsx:83, Schedule.tsx:58, Gallery.tsx:60, RSVP.tsx:99) |
| Navbar.CharAt0 | src/components/Navbar.tsx:21-23 | `charAt(0)` is the first character, or empty for an empty name |
| Navbar.InitialsAbbreviateFullNames | src/components/Navbar.tsx:21-24 | the initials are the first letters of the two names in the full-names line, groom first, around the same " & " |
| Navbar.ShippedInitials | src/components/Navbar.tsx:21-24 | Ciputra and Azizah give "C & A" and "Ciputra & Azizah" |
| Navbar.HandleScroll | src/components/Navbar.tsx:36-74 | the bar is shown iff the scroll position is strictly past 100; the menu is untouched |
| Navbar.VisibleIffLastPastThreshold | src/components/Navbar.tsx:31-40 | after any scrolling the bar shows iff the latest position is past 100; before any it is hidden |
| Navbar.OnMenuEvent | src/components/Navbar.tsx:116-150 | the menu is open iff the event was the menu button; the close button and every overlay link close it |
| Navbar.OverlayHrefs | src/components/Navbar.tsx:143-150 | the overlay's links target the four sections in order, then the RSVP section once more |
| Navbar.MenuOpenIffLastIsMenuButton | src/components/Navbar.tsx:116-150 | the menu is open iff the latest menu event was the menu button; visibility is untouched |
| Navbar.OverlayTitle | src/components/Navbar.tsx:124-128 | the full names appear only in the open overlay |
| Footer.Monogram | src/components/Footer.tsx:13-15 | the monogram is the navigation bar's initials, groom first |
| Footer.CopyrightNames | src/components/Footer.tsx:16 | the copyright names are the full-names line with the bride first |
| Footer.ShippedFooterNames | src/components/Footer.tsx:13-16 | the shipped couple gives "C & A" and "Azizah & Ciputra" |
| Footer.BeforeFirstComma | src/components/Footer.tsx:137 | `split(",")[0]` is the longest comma-free prefix; it is the whole string iff there is no comma |
| Footer.BeforeFirstCommaOfPair | src/components/Footer.tsx:137 | "city, country" yields the city |
| Footer.BeforeFirstCommaIdempotent | src/components/Footer.tsx:137 | taking the part before the first comma twice changes nothing |
| Footer.ShippedCity | src/data.ts:12 | "Kyoto, Japan" yields "Kyoto" |
| Footer.ExploreMatchesNavbar | src/components/Footer.tsx:103-126 | the footer's links lead to the navigation bar's sections, in the same order |
| Uri.EscapeAt | src/components/SplashScreen.tsx:22 | a `%` with two hex digits reads as one byte below 256 |
| Uri.Continuation | src/components/SplashScreen.tsx:22 | a successful read of continuation escapes stays inside the string |
| Uri.EscapedChar | src/components/SplashScreen.tsx:22 | an escape sequence decodes to one character spanning at least three characters of input |
| Uri.DecodeUri | src/components/SplashScreen.tsx:22 | `decodeURIComponent` fails only with a `URIError` |
| Uri.DecodeUriPlain | src/components/SplashScreen.tsx:22 | a string without `%` decodes to itself |
| Uri.DecodeUriPlainPrefix | src/components/SplashScreen.tsx:22 | a prefix without `%` passes through unchanged in front of whatever the rest decodes to |
| Uri.DecodeUriStrayPercent | src/components/SplashScreen.tsx:22 | a `%` not followed by two hex digits makes the decoding fail |
| Uri.EncodeUri | src/components/SplashScreen.tsx:22 | `encodeURIComponent` output holds only unreserved characters, `%` and hex digits, and is no shorter than the input |
| Uri.DecodeEncodeChar | src/components/SplashScreen.tsx:22 | every character's escape sequence decodes back to it |
| Uri.DecodeEncode | src/components/SplashScreen.tsx:22 | `decodeURIComponent(encodeURIComponent(s)) == s` for every string |
| Splash.ReplaceAll | src/components/SplashScreen.tsx:22 | `replace(/\+/g, " ")` turns every `+` into a space and keeps every other character |
| Splash.GuestNameAsWritten | src/components/SplashScreen.tsx:15-23 | without a non-empty parameter, the default greeting. Otherwise it fails, with `URIError`, iff the second decoding fails. A success is the decoded text, character by character, with every `+` made a space and every other character kept |
| Splash.GuestName | src/components/SplashScreen.tsx:15-23 | the corrected greeting: the parameter as the browser delivers it, or the default |
| Splash.PlainNamesAgree | src/components/SplashScreen.tsx:19-23 | for names without `%` and `+` the two agree |
| Splash.StrayPercentThrows | src/components/SplashScreen.tsx:22 | a name containing a `%` not followed by two hex digits throws, where the corrected version shows it |
| Splash.HundredPercentSure | src/components/SplashScreen.tsx:22 | the name "100% Sure" throws `URIError` |
| Splash.PlusBecomesSpace | src/components/SplashScreen.tsx:22 | a `+` that really is in the name is shown as a space, unlike the corrected version |
| Splash.RawParameterDecodes | src/components/SplashScreen.tsx:19-22 | had the parameter still been encoded, the code would recover the name with its `+` signs as spaces |
| Music.Mount | src/components/MusicPlayer.tsx:21-23 | starts paused; the visitor counts as returning iff the preload flag is set |
| Music.Autoplay | src/components/MusicPlayer.tsx:26-39 | plays only once opened, with music and for a returning visitor, and then iff the browser allows it; otherwise nothing changes |
| Music.Toggle | src/components/MusicPlayer.tsx:42-55 | without audio nothing happens; playing music pauses; paused music plays iff `play()` is allowed |
| Music.Render | src/components/MusicPlayer.tsx:58-70 | nothing iff no music URL; the button iff music and opened; its label is "Pause Music" iff playing |
| Music.ShippedDataHasNoMusic | src/components/MusicPlayer.tsx:17-18 | a configuration without music renders nothing |
| Music.PlayingWasStarted | src/components/MusicPlayer.tsx:26-55 | music that plays was started by an allowed click or an allowed autoplay on an opened invitation for a returning visitor; the visitor flag never changes |
| Music.FirstVisitNoAutoplay | src/components/MusicPlayer.tsx:26-39 | a first-time visitor never hears music start without a click |
| Music.ToggleTwice | src/components/MusicPlayer.tsx:42-55 | two allowed clicks return to the starting state |
| Music.OpenInvitation | src/components/MusicPlayer.tsx:26-39 | opening the invitation plays music iff the visitor is returning and autoplay is allowed, and the button shows |

## Left out

- Animations (GSAP timelines, scroll triggers, CSS transitions) only change how things look. They are not modelled.
- Countdown:
  - The clock (`new Date()`) is not modelled: the countdown takes the difference in milliseconds as an integer.
  - `Math.floor` on floating-point quotients is modelled as integer division, which is exact for the integer millisecond differences involved.
- The date formatting for display (`toLocaleString`, `getDate`, the footer's `getFullYear`) depends on the locale and the clock. It is not modelled.
- The navigation bar takes `window.scrollY` as an integer input. GSAP's show/hide tweens are not modelled.
- Asset loading is abstracted:
  - `Image`, `<video>` and `<audio>` loading is reduced to an outcome per URL.
  - `Promise.all` is reduced to a completion order supplied as input.
  - `localStorage` is a map.
  - `console` logging is not modelled.
- AssetCache.CacheName is declared in the source but never used, so no operation reads it.
- `URLSearchParams.get` is not modelled. The splash screen's `to` is taken as what it returns.
- String indexing:
  - JavaScript strings are UTF-16 code-unit sequences; Dafny's `string` is a sequence of Unicode scalar values.
  - `charAt(0)` of a name starting outside the Basic Multilingual Plane is therefore a whole character here, not half a surrogate pair.
  - Lone surrogates cannot occur in the model's strings.
- Music: the `audioRef` element, `play()` as a promise, and the effect scheduling of React are not modelled. Whether `play()` succeeds is an input, taken to resolve before the next event.
- Gift: the clipboard API's promise is not modelled. The write is taken to succeed.
- AssetCache.PreloadAllAssets: the completion order is a permutation of all the loads, so every load is taken to settle. The loaders in src/utils/assetCache.ts:62-85 have no timeout. A media element that fires neither its load event nor `onerror` leaves `Promise.all` pending, and the flag then stays unwritten. The model does not cover that run.
- Navbar.OnMenuEvent: it accepts the menu button in any state. The page can only deliver it while the bar is shown, since the bar is hidden with `autoAlpha: 0` (src/components/Navbar.tsx:33 and 67). The lemmas about menu traces hold for every trace, so they also hold for the traces the page produces.
- Music.Run: an autoplay run may occur at any point of a trace. The page re-runs the effect only when `isOpened`, `hasMusic` or the visitor flag changes (src/components/MusicPlayer.tsx:39). PlayingWasStarted and FirstVisitNoAutoplay hold for every trace, so they also hold for the traces the page produces.
- Rsvp: the form's HTML `required` validation is modelled as a precondition of submission: a name and a message are non-empty.

## Findings

| source | as written | input that shows it | evidently intended | confidence | as-written member | corrected member |
|---|---|---|---|---|---|---|
| src/utils/assetCache.ts:32 | `data.gallery.forEach(...)` although the shipped gallery is an object `{ title, images }` (src/data.ts:80-94), not the array that types.ts:79 declares | the shipped configuration: calling `forEach` on the object throws `TypeError`, so the collector fails whenever it is called (no component calls it at present) | iterate `data.gallery.images` | high, not executed | AssetCache.ShippedGalleryThrows | AssetCache.GalleryUrlsOfObject |
| src/components/SplashScreen.tsx:22 | `decodeURIComponent(to)` applied to a value `URLSearchParams.get` has already decoded, then `+` turned into spaces | the link `?to=100%25%20Sure` gives `to == "100% Sure"`, and the second decoding throws `URIError`; `?to=A%2BB` shows "A B" | show `to` as delivered | medium, not executed | Splash.HundredPercentSure | Splash.GuestName |
