# Verified model of the portfolio site's decision logic

The site is a single-page React portfolio. Almost all of it is rendering. This project models the four parts of it that make decisions, and proves what they promise:

- **Device tiering and effect throttling** (`src/utils/performanceOptimizer.js`), module `PerformanceOptimizer`:
  - the tier classifier and the effect-config table, with the helpers built on them;
  - the frame-rate monitor, as a class with the fields `fps`, `frames`, `lastTime` and `callbacks`;
  - the smart throttle, as a class over its `lastTime`.
- **Contact form** (`src/components/Contact.jsx`), module `Contact`:
  - JavaScript's whitespace set, `trim`, and the email regular expression;
  - the live per-field check and the whole-form check;
  - the component state: form data, error map, submitting, submitted and error text.
- **Navigation bars**:
  - `src/components/Navbar.tsx` is module `NavbarTsx`: menu state, scroll, resize, the drag gesture and the body-overflow effect;
  - `src/components/Navbar.jsx` is module `NavbarJsx`, the variant without gestures;
  - module `NavbarRules` holds the rules both share.
- **About section** (`src/components/About.jsx`), module `About`:
  - the viewport classification;
  - the generation of the particle list;
  - the typewriter's interval tick.

Each event handler is a method that takes the browser's values as parameters: a timestamp, `scrollY`, `innerWidth`, a gesture's offset and velocity. A React handler plus the render and effect it triggers counts as one method call. Timestamps are integer milliseconds. Scroll positions, drag offsets, velocities and device memory are `real`, because only comparisons are made on them.

## Model

| member | source | states |
|---|---|---|
| `PerformanceOptimizer.DetectDeviceCapability` | src/utils/performanceOptimizer.js:6-11 | A missing or zero core or memory reading becomes 4, and any other reading is kept. The mobile and WebGL flags pass through. |
| `PerformanceOptimizer.GetTier` | src/utils/performanceOptimizer.js:14-19 | A mobile device is always low. The tier is high iff the device is not mobile and has 8 or more cores and 8 or more memory. It is low iff the device is mobile or has fewer than 4 cores or less than 4 memory. All other devices are medium. |
| `PerformanceOptimizer.TierMonotone` | src/utils/performanceOptimizer.js:15-18 | For two devices of the same mobile kind, more cores and more memory never give a lower tier. |
| `PerformanceOptimizer.MissingReadingsGiveMedium` | src/utils/performanceOptimizer.js:8-17 | A non-mobile device whose probe reports neither cores nor memory is tier medium. |
| `PerformanceOptimizer.GetEffectConfig` | src/utils/performanceOptimizer.js:22-50 | The config is the fixed low/medium/high table: particles 100/250/500, blur 10/20/40, frame rate 30/30/60. All effects are enabled except on low. The frame rate is 60 only on high. The quality string is the tier's name. |
| `PerformanceOptimizer.EffectConfigMonotone` | src/utils/performanceOptimizer.js:25-47 | Particle count, blur and frame rate never decrease from low to medium to high. Once effects are enabled on one tier, they stay enabled on every higher tier. |
| `PerformanceOptimizer.ShouldDisableHeavyEffects` | src/utils/performanceOptimizer.js:103-106 | Heavy effects are disabled iff the tier is low, which is the same as the config not enabling all effects. The extra `isMobile` disjunct adds nothing. |
| `PerformanceOptimizer.GetOptimizedParticleCount` | src/utils/performanceOptimizer.js:109-113 | The result is at most the requested count and at most the tier's ceiling, and it equals one of the two. |
| `PerformanceOptimizer.DefaultParticleCountIsCeiling` | src/utils/performanceOptimizer.js:109-113 | With the default request of 500, the result is exactly the tier's particle ceiling. |
| `PerformanceOptimizer.GetOptimizedFrameRate` | src/utils/performanceOptimizer.js:116-120 | The frame rate is 30 or 60, and it is 60 iff the tier is high. |
| `PerformanceOptimizer.RoundedFps` | src/utils/performanceOptimizer.js:68 | The result is `Math.round(frames*1000/elapsed)`: the nearest integer, with halves rounded up. For a window of at least 1000 ms it never exceeds the window's frame count. |
| `PerformanceOptimizer.RateBelowFrames` | src/utils/performanceOptimizer.js:67-68 | The integer quotient used for rounding lies between 0 and the frame count whenever at least 1000 ms have elapsed. |
| `PerformanceOptimizer.NotifyAll` | src/utils/performanceOptimizer.js:73 | Each registered callback is called exactly once with the new fps, in registration order. |
| `PerformanceOptimizer.FrameRateMonitor.constructor` | src/utils/performanceOptimizer.js:56-61 | The monitor starts with fps 60, no frames, lastTime set to the creation time and no callbacks. |
| `PerformanceOptimizer.FrameRateMonitor.OnFpsChange` | src/utils/performanceOptimizer.js:82-84 | The callback is appended to the list, and nothing else changes. |
| `PerformanceOptimizer.FrameRateMonitor.Measure` | src/utils/performanceOptimizer.js:64-77 | Case 1: at least 1000 ms have passed since lastTime. fps becomes the rounded rate of the window including this frame, and is at most that frame count. frames resets to 0, lastTime becomes the current time, and every callback is notified in order. Case 2: otherwise only `frames` changes, by one, and nothing is notified. |
| `PerformanceOptimizer.Replay` | src/utils/performanceOptimizer.js:88-99 | Replays a sequence of calls on the throttle. The result lists the forwarded call times, which are never more than the calls. lastTime is the last forwarded time, or the starting value if no call was forwarded. |
| `PerformanceOptimizer.ForwardedAreCalls` | src/utils/performanceOptimizer.js:95-97 | Every forwarded time is the time of an actual call. |
| `PerformanceOptimizer.ForwardedSpacing` | src/utils/performanceOptimizer.js:95-97 | Forwarded calls are at least the delay apart. The first one is at least the delay after the starting lastTime. |
| `PerformanceOptimizer.DefaultThrottleSpacing` | src/utils/performanceOptimizer.js:88-99 | With the default `baseDelay` of 16 ms, a fresh throttle forwards calls at least 16 ms apart, the first no earlier than 16 ms. |
| `PerformanceOptimizer.SmartThrottle.constructor` | src/utils/performanceOptimizer.js:88-90 | The throttle starts with lastTime 0, and its delay is the base delay. |
| `PerformanceOptimizer.SmartThrottle.Call` | src/utils/performanceOptimizer.js:92-99 | A call is forwarded iff `now - lastTime >= delay`. A forwarded call sets lastTime to now. A dropped call changes only the call log. The delay never changes, and the state always equals the replay of all calls so far. |
| `Contact.FormData.With` | src/components/Contact.jsx:39-42 | Only the edited field takes the new value; every other field keeps its value. |
| `Contact.TrimEmptyIffBlank` | src/components/Contact.jsx:101 | `trim()` returns the empty string exactly for strings made only of JavaScript whitespace. |
| `Contact.EmailTestMatchesRegex` | src/components/Contact.jsx:68 | The executable email test accepts exactly the language of `^[^\s@]+@[^\s@]+\.[^\s@]+$`. That language is three non-empty runs of characters that are neither whitespace nor '@', joined by '@' and then '.'. |
| `Contact.ValidEmailShape` | src/components/Contact.jsx:107 | An accepted address has no whitespace, and exactly one '@', which is not at the start. |
| `Contact.ValidateField` | src/components/Contact.jsx:61-95 | Only the edited field's key is set or deleted; every other entry is unchanged. Subject leaves the map identical. Name and message get their 'required' message iff the value is empty, without trimming. Email has an entry iff the pattern fails. That entry is 'Email is required' when the value is empty, and 'Invalid email format' otherwise. |
| `Contact.FormErrors` | src/components/Contact.jsx:98-116 | The only possible keys are name, email and message. Name and message are missing iff the value is whitespace-only. For email, 'Email is required' when the value is blank; otherwise the untrimmed value is pattern-checked, and a failure gives 'Invalid email format'. |
| `Contact.FormValidIff` | src/components/Contact.jsx:98-116 | The error map is empty iff name and message are not blank and the email passes the pattern. |
| `Contact.SubjectNeverChecked` | src/components/Contact.jsx:98-116 | Changing the subject never changes the form's errors. |
| `Contact.BlankNameLiveVersusSubmit` | src/components/Contact.jsx:76-102 | A non-empty, whitespace-only name clears the live name error but is still rejected by the whole-form check. |
| `Contact.TemplateParams` | src/components/Contact.jsx:139-144 | The request carries name, email and message unchanged. Its subject is never empty: an empty subject is sent as "Message from Portfolio". |
| `Contact.ContactForm.constructor` | src/components/Contact.jsx:7-16 | The form starts with all fields empty, not submitting, not submitted, no error text and no field errors. |
| `Contact.ContactForm.HandleChange` | src/components/Contact.jsx:37-59 | Only the edited field changes, and the error map becomes the live check's update of the old one. The submit flags and error text keep their values, and every field stays within its length limit. |
| `Contact.ContactForm.ValidateForm` | src/components/Contact.jsx:98-117 | The error map is replaced by the whole-form errors. The result is true exactly when that map is empty. |
| `Contact.ContactForm.BeginSubmit` | src/components/Contact.jsx:119-127 | If validation fails, no request is made and the flags and error text are unchanged. Otherwise the error text is cleared, the form is submitting, and the request holds the current form's parameters. |
| `Contact.ContactForm.CompleteSubmit` | src/components/Contact.jsx:148-159 | On success all four fields become empty and the form is submitted. On failure the form data is kept and the error text is set. In both cases the form is no longer submitting. |
| `NavbarRules.OpenAfterResize` | src/components/Navbar.tsx:309-313 | A resize never opens the menu. It closes an open menu exactly when the width is above 768. |
| `NavbarRules.ResizeIdempotent` | src/components/Navbar.jsx:211-216 | A second resize at the same width changes nothing. |
| `NavbarRules.OverflowFor` | src/components/Navbar.tsx:321-325 | The body overflow is 'hidden' exactly when the menu is open; otherwise it is 'unset'. |
| `NavbarTsx.OpenAfterSwipeEnd` | src/components/Navbar.tsx:345-359 | A closed menu opens iff `offset.x > 100` and `velocity.x > 0`. An open menu closes iff `offset.x < -100` or `velocity.x < -500`. Otherwise the menu stays as it was. |
| `NavbarTsx.OpeningSwipeKeepsOpen` | src/components/Navbar.tsx:350-356 | A swipe that opens a closed menu leaves an already open menu open. |
| `NavbarTsx.SmallSwipeChangesNothing` | src/components/Navbar.tsx:350-356 | A gesture that passes neither threshold leaves the menu as it was. |
| `NavbarTsx.MenuX` | src/components/Navbar.tsx:433 | The menu's x is never negative, never below dragX, and equals either 0 or dragX. |
| `NavbarTsx.Navbar.constructor` | src/components/Navbar.tsx:293-295 | The bar starts not scrolled, closed, with dragX 0 and the body overflow 'unset'. |
| `NavbarTsx.Navbar.HandleScroll` | src/components/Navbar.tsx:299-301 | `scrolled` becomes `scrollY > 50`, and nothing else changes. |
| `NavbarTsx.Navbar.HandleResize` | src/components/Navbar.tsx:309-313 | The menu closes when the width is above 768; otherwise nothing changes. The overflow still matches the menu. |
| `NavbarTsx.Navbar.ToggleMenu` | src/components/Navbar.tsx:332 | The menu's open state is negated, and the overflow follows it. |
| `NavbarTsx.Navbar.CloseMenu` | src/components/Navbar.tsx:334 | The menu is closed and the overflow is 'unset', whatever the previous state, so calling it again changes nothing. |
| `NavbarTsx.Navbar.HandleSwipeStart` | src/components/Navbar.tsx:337-339 | dragX becomes 0, and nothing else changes. |
| `NavbarTsx.Navbar.HandleSwipe` | src/components/Navbar.tsx:341-343 | dragX becomes the gesture's offset, and nothing else changes; `MenuX` keeps the rendered x non-negative. |
| `NavbarTsx.Navbar.HandleSwipeEnd` | src/components/Navbar.tsx:345-359 | The open state follows the swipe-end rule, dragX goes back to 0, and the overflow matches the new open state. |
| `NavbarTsx.Navbar.Unmount` | src/components/Navbar.tsx:327-329 | Cleanup resets the body overflow to 'unset'. |
| `NavbarJsx.Navbar.constructor` | src/components/Navbar.jsx:197-198 | The bar starts not scrolled and closed, with the body overflow 'unset'. |
| `NavbarJsx.Navbar.HandleScroll` | src/components/Navbar.jsx:202-204 | `scrolled` becomes `scrollY > 50`, and nothing else changes. |
| `NavbarJsx.Navbar.HandleResize` | src/components/Navbar.jsx:211-216 | The menu closes when the width is above 768; otherwise nothing changes. |
| `NavbarJsx.Navbar.ToggleMenu` | src/components/Navbar.jsx:235 | The menu's open state is negated, and the overflow follows it. |
| `NavbarJsx.Navbar.CloseMenu` | src/components/Navbar.jsx:237 | The menu is closed and the overflow is 'unset', whatever the previous state. The logo (line 259) and the mobile links (line 311) call it. |
| `NavbarJsx.Navbar.Unmount` | src/components/Navbar.jsx:230-232 | Cleanup resets the body overflow to 'unset'. |
| `About.DeviceTypeFor` | src/components/About.jsx:40-50 | Widths below 768 are mobile, widths of 1024 and above are desktop, and widths in between are tablet. |
| `About.ParticleCountMonotone` | src/components/About.jsx:42-50 | The counts are 8, 12 and 15, and a wider viewport never gets fewer particles. |
| `About.MobileAgrees` | src/components/About.jsx:781-787 | `useDeviceType` reports mobile exactly when the particle layer's device type is mobile. That is exactly when the particle container is hidden (line 158). |
| `About.GenerateParticles` | src/components/About.jsx:39-65 | The device type is the classification of the width. The list has exactly that type's particle count, with ids 0 to count-1 in order. |
| `About.ParticleSystem.constructor` | src/components/About.jsx:35-68 | On mount, the list is generated for the current width. |
| `About.ParticleSystem.HandleResize` | src/components/About.jsx:70-72 | Each resize replaces the device type and the whole list with those for the new width. |
| `About.TicksShape` | src/components/About.jsx:801-810 | Let L be the text's length. For n from 0 to L+1, after n ticks the display is the first n-1 characters and the interval still runs. From tick L+2 on, the interval is cleared and the whole text shows. |
| `About.DisplayGrows` | src/components/About.jsx:804-806 | After any tick the display is a prefix of the text. After the first tick it grows by one character per tick, until the full text is shown. Later ticks do not change it. |
| `About.Typewriter.constructor` | src/components/About.jsx:799-802 | The typewriter starts at index 0 and shows the empty text, with the interval running. |
| `About.Typewriter.OnTick` | src/components/About.jsx:803-810 | One interval run takes the state to the tick function of the old state. Afterwards the display is a prefix of the text. |
| `About.Typewriter.ChangeText` | src/components/About.jsx:798-813 | A different text restarts the index at 0 on a running interval, and the shown text stays until the next tick. An unchanged text changes nothing: the memoised component does not re-render and the effect does not rerun. |

## Left out

- Browser probing: `navigator.hardwareConcurrency`, `navigator.deviceMemory`, the user-agent test and the WebGL canvas probe (performanceOptimizer.js:3-11) are inputs. `hasWebGL` is carried but never read by the tier.
- Scheduling: `requestAnimationFrame`, `setInterval` and `setTimeout` are replaced by explicit calls that take a timestamp or a tick.
  - `FrameRateMonitor.start` is not modelled. Its frame callback is `Measure`. Calling `start` twice would run two callback chains; the model does not capture that.
  - Callbacks are opaque ids. The model assumes that notifying a callback does not change the monitor itself.
- `performance.now()` gives fractional milliseconds; the model uses integer milliseconds.
- Adaptive ceilings: the monitor only measures and notifies (performanceOptimizer.js:63-84); nothing lowers or raises the effect ceilings from the measured fps, so the model has no such adaptation.
- A missing or zero device-memory reading defaults to 4 (performanceOptimizer.js:9), and the model does the same.
- Contact popup toggling (`togglePopup`, `closePopup`) is presentation.
- Contact typing-status timers (Contact.jsx:44-55) and the 5 s reset of `isSubmitted` (Contact.jsx:154) are timers.
- The EmailJS `fetch` (Contact.jsx:130-146) is network I/O. It is reduced to the request parameters that are built and a success/failure outcome passed to `CompleteSubmit`.
- String length: JavaScript counts a string's length in UTF-16 code units, while a Dafny `string` counts Unicode scalar values. So `CharLimit`/`WithinLimits` admit text the browser's `maxLength` blocks (Contact.jsx:278-326): a name of 50 emoji is 100 code units. The typewriter's `text.length` and `substring` (About.jsx:804-805) would take two ticks per character outside the Basic Multilingual Plane and could show a lone surrogate; the model shows one whole character per tick. The regex and `trim` results are unaffected, because every `\s` character lies in the Basic Multilingual Plane, and the only typewriter text is the ASCII literal "About Me" (About.jsx:928).
- `maxLength` is enforced by the browser, not by `handleChange`. The model states it as a precondition of `HandleChange` and an invariant of the form.
- Double submission: the submit button is disabled while a request is in flight (Contact.jsx:347). That is rendering, so `BeginSubmit` itself does not refuse a second submit, nor does the code.
- Random particle sizes, colours, durations, delays and positions (About.jsx:58-62).
- Which Navbar variant the app loads depends on bundler resolution of an extension-less import. Both variants are modelled, and neither is asserted to be the live one.
- Styling, animation variants, three.js scenes, the other components and the hooks that import undefined helpers are presentation or glue with no decision logic.
