# desktop-notifier: backend selection and the notification orchestrator

This project models the platform-independent layer of `desktop-notifier`
(`src/desktop_notifier/main.py`) and proves properties of that model in
Dafny. The modelled layer has two parts:

- **`get_implementation_class`**: the backend selector. It picks the
  Cocoa, DBus, WinRT or Dummy backend from the operating system name, the OS
  version and whether the program runs from a (signed) app bundle. The model
  is the pure function `Selector.ImplementationClass` over `PlatformFacts`. The
  platform probes (`platform.system()`, `platform.version()`, `macos_version`,
  `is_bundle()`, `is_signed_bundle()`) are fields of that input.
- **`DesktopNotifier`**: the orchestrator. It owns one backend, keeps the
  default `app_icon`, remembers in `_did_request_authorisation` whether
  authorisation was requested, and caches the backend's capabilities in
  `_capabilities`. The model is the class `Notifier.DesktopNotifier`, with
  those fields and a `const impl: Backend` chosen once in the constructor.

Versions are final-release segments (`seq<nat>`). They compare as PEP 440
compares the release segment of final releases: lexicographically, with
missing trailing segments counting as zero (`Versions.Compare`). The lemma
`Versions.CompareMatchesPackaging` proves that this padded comparison equals
the comparison `packaging` performs: strip the trailing zeros, then compare
the tuples the way Python compares tuples. The thresholds are `10.14` for
macOS and `10.0.10240` for Windows.

The native backends are not part of this model. `Backends.Backend` stands in
for them with their contract only:

- Every answer is left open: whether authorisation is granted, whether a
  notification is accepted, the identifier, and the capability set are all
  chosen arbitrarily with `:|`.
- Ghost fields record the answers (`lastAuthAnswer`, `lastAccepted`,
  `lastCapabilities`) and count the calls of each operation (`calls`).

The notifier's contracts therefore say what it forwarded and what it
returned, whatever the backend does. When a notification limit is set, an
accepted send may evict the oldest shown notifications, so the shown list is
only known to be a suffix of the old list followed by the new notification.
Field-level `modifies` frames
(`impl\`calls`, `notification\`icon`, …) state what each method leaves alone.

The notifier's changing state is summarised by `Notifier.Snapshot`: the
flag, the cache and the backend call counters. `Notifier.Step` gives the
effect of one call on it. Every method that changes this state ensures
`Model() == Step(old(Model()), op)`. `SetAppName` changes only the backend's
app name and ensures `Model() == old(Model())`. The lemmas about `Notifier.Run` then
hold for any sequence of calls on a notifier. They cover lazy one-time
authorisation, the forwarding of every send and every explicit request, and
the capability cache, including the `if not self._capabilities` test, under
which an empty set counts as "not cached".

Points where the code behaves in a way that is easy to misread:

- The selector returns Cocoa for an unsigned bundle too; the missing signature
  only produces a log warning (main.py:77-84).
- `get_capabilities` asks the backend again whenever the cached set is empty
  (main.py:361), so the backend is not guaranteed to be asked only once.
- The authorisation state is one boolean, "requested or not"
  (main.py:170, 213). An explicit `request_authorisation` always reaches the
  backend; whether the user is prompted again is up to the backend.

The client methods `Notifier.SendTwice` and `Notifier.QueryCapabilitiesTwice`
show what a caller can conclude from the contracts alone. After two sends,
the backend has been asked for authorisation once and has received two
sends. A non-empty capability answer is served from the cache on the next
call; an empty answer is fetched again.

## Model

| member | source | states |
|---|---|---|
| `Versions.Compare` | src/desktop_notifier/main.py:75 | the zero-padded release comparison: equal releases compare `Equal`, and the outcome agrees with the first segments where they differ |
| `Versions.AtLeast` | src/desktop_notifier/main.py:102-104 | `Version(a) >= Version(b)`: holds for equal releases, and a larger or smaller first segment decides it |
| `Versions.TupleCompare` | src/desktop_notifier/main.py:75 | Python's tuple ordering, which reports `Equal` exactly for identical tuples |
| `Versions.StripTrailingZeros` | src/desktop_notifier/main.py:75 | the key `packaging` compares keeps a prefix of the release, never ends in zero, and only zeros were dropped |
| `Versions.CompareMatchesPackaging` | src/desktop_notifier/main.py:75 | the zero-padded segment comparison agrees with `packaging`'s strip-zeros-then-tuple comparison on every pair of releases |
| `Versions.EqualIffSameSegments` | src/desktop_notifier/main.py:102-104 | two releases compare equal exactly when every zero-padded segment agrees |
| `Versions.TrailingZeroIgnored` | src/desktop_notifier/main.py:102-104 | appending a zero segment never changes a comparison (`10.14.0` behaves like `10.14`) |
| `Versions.CompareAntisymmetric` | src/desktop_notifier/main.py:75 | swapping the operands flips the outcome |
| `Versions.AtLeastTransitive` | src/desktop_notifier/main.py:75 | `>=` on releases is transitive |
| `Versions.AtLeastTotal` | src/desktop_notifier/main.py:75 | any two releases are ordered one way or the other by `>=` |
| `Selector.ImplementationClass` | src/desktop_notifier/main.py:65-112 | the selector itself, a total function of the platform facts: a native backend only on Darwin, Linux or Windows, Cocoa only for a bundle on macOS >= 10.14, WinRT only from Windows 10.0.10240 |
| `Selector.LinuxIsDBus` | src/desktop_notifier/main.py:97-100 | the DBus backend is chosen exactly when the system is Linux, whatever the versions and bundle flags |
| `Selector.DarwinSelection` | src/desktop_notifier/main.py:72-95 | on Darwin, Cocoa is chosen exactly when macOS >= 10.14 and running from a bundle; every other Darwin case gets Dummy |
| `Selector.SignatureIrrelevant` | src/desktop_notifier/main.py:77-84 | whether the bundle is signed never changes the selected backend |
| `Selector.WindowsSelection` | src/desktop_notifier/main.py:102-112 | on Windows, WinRT is chosen exactly when the version is >= 10.0.10240, Dummy otherwise |
| `Selector.NativeBackendsStayOnTheirPlatform` | src/desktop_notifier/main.py:65-112 | Cocoa only on Darwin, WinRT only on Windows, and Dummy for every system other than Darwin, Linux and Windows |
| `Selector.OnlyRelevantFactsMatter` | src/desktop_notifier/main.py:65-112 | the choice depends only on the system name and the facts that system consults (equal-comparing Windows versions included), so the selector is determined by them |
| `Selector.Examples` | src/desktop_notifier/main.py:72-112 | concrete platforms: macOS 10.13.6 and unbundled 10.14 get Dummy, unsigned bundled 14.2.1 gets Cocoa, Windows 10.0.10240 and 10.0.22631 get WinRT, 6.3.9600 gets Dummy, Linux gets DBus, FreeBSD gets Dummy |
| `Notifications.Notification.constructor` | src/desktop_notifier/main.py:275-288 | a notification built from its fields holds exactly those fields and no identifier |
| `Notifications.WithDefaultIcon` | src/desktop_notifier/main.py:230-231 | a notification's own icon is kept; only a missing icon is replaced by the default |
| `Notifications.DefaultIconIdempotent` | src/desktop_notifier/main.py:230-231 | applying the default icon a second time changes nothing |
| `Notifications.CoerceAppIconAsWritten` | src/desktop_notifier/main.py:148-165 | the `app_icon` coercion as written: an `Icon` or `None` is kept, a path becomes a path icon |
| `Notifications.AsWrittenNeverNamesAnIcon` | src/desktop_notifier/main.py:154-157 | as written, every string the URL parser can describe becomes a URI icon; the named-icon branch is dead |
| `Notifications.ThemeNameTakenForUri` | src/desktop_notifier/main.py:154-157 | the theme name "dialog-information", which has no host, becomes a URI icon as written |
| `Notifications.CoerceAppIcon` | src/desktop_notifier/main.py:148-157 | corrected coercion: yields no icon exactly for `None`, and agrees with the written code on everything but strings |
| `Notifications.CoerceAppIconClassifies` | src/desktop_notifier/main.py:148-165 | corrected coercion: an `Icon` or `None` is kept, a string becomes a URI icon exactly when it has a URI scheme and a theme-named icon otherwise, a path becomes a path icon |
| `Notifications.CorrectedExamples` | src/desktop_notifier/main.py:129-131 | corrected coercion: "dialog-information" is a named icon, while a `file:` URI without a host and an `https:` URI with a host both stay URI icons |
| `Notifications.CoercionsAgreeOnUris` | src/desktop_notifier/main.py:154-157 | corrected and written coercions differ exactly on strings without a scheme |
| `Backends.Without` | src/desktop_notifier/main.py:348 | removing a notification from the shown list drops every occurrence of it and keeps every other entry with its multiplicity |
| `Backends.WithoutDistributes` | src/desktop_notifier/main.py:348 | removal commutes with concatenation, so the remaining entries keep their order |
| `Backends.Backend.constructor` | src/desktop_notifier/main.py:169 | a new backend has the selected kind, the app name and limit it was given, nothing shown and no calls yet |
| `Backends.Backend.RequestAuthorisation` | src/desktop_notifier/main.py:214 | the backend's authorisation request is counted and its answer recorded |
| `Backends.Backend.HasAuthorisation` | src/desktop_notifier/main.py:218 | the non-prompting query is counted and its answer recorded |
| `Backends.Backend.Send` | src/desktop_notifier/main.py:240 | a send is counted; if accepted, the notification gets an identifier and is shown last, after evicting some of the oldest entries (none without a limit); otherwise nothing about it changes |
| `Backends.Backend.Clear` | src/desktop_notifier/main.py:348 | a clear is counted and the notification is no longer shown |
| `Backends.Backend.ClearAll` | src/desktop_notifier/main.py:355 | a clear-all is counted and nothing is shown afterwards |
| `Backends.Backend.GetCapabilities` | src/desktop_notifier/main.py:362 | a capability query is counted and its answer recorded |
| `Notifier.StepKeepsWriteOnceState` | src/desktop_notifier/main.py:213-236 | no call clears the authorisation flag or replaces a non-empty cache, and a call adds at most one authorisation request |
| `Notifier.SendAsksOnlyFirstTime` | src/desktop_notifier/main.py:235-240 | a send asks for authorisation exactly when the flag was false, sets the flag, and sends once |
| `Notifier.CapabilitiesQueryOnMiss` | src/desktop_notifier/main.py:361-363 | a capability call queries the backend exactly when the cache is None or empty, and then caches the answer |
| `Notifier.LazyAuthorisation` | src/desktop_notifier/main.py:233-236 | over any calls without explicit requests, the backend is asked for authorisation once if some send happens and nobody asked before, otherwise never |
| `Notifier.AuthorisationAtMostOnce` | src/desktop_notifier/main.py:170 | from a fresh notifier, any sequence of calls with no explicit request asks the backend for authorisation at most once |
| `Notifier.RequestsForwarded` | src/desktop_notifier/main.py:213-214 | every explicit request reaches the backend, plus at most one implicit request when none had been made |
| `Notifier.EverySendForwarded` | src/desktop_notifier/main.py:238-240 | the backend receives exactly one send per send call, whatever the authorisation answer |
| `Notifier.CacheStable` | src/desktop_notifier/main.py:361-363 | once a non-empty set is cached, every later call sequence keeps it and never queries the backend again |
| `Notifier.EmptyAnswerRequeried` | src/desktop_notifier/main.py:361-362 | over any sequence of calls in which the backend answers every capability query with the empty set, every capability call queries it again, whatever calls come in between |
| `Notifier.Step` | src/desktop_notifier/main.py:201-363 | the effect of one call on the flag, the cache and the backend call counts; no call clears the flag, and the pass-throughs leave flag and cache alone |
| `Notifier.Run` | src/desktop_notifier/main.py:201-363 | the effect of a sequence of calls; the flag once set stays set, and the send and capability counts never decrease |
| `Notifier.DesktopNotifier.constructor` | src/desktop_notifier/main.py:140-176 | the backend is the selector's choice for the platform and gets the app name and limit; the flag is false and no capabilities are cached; the icon argument is coerced by the corrected coercion, which agrees with the written code except on strings (see Findings) |
| `Notifier.DesktopNotifier.GetAppName` | src/desktop_notifier/main.py:191-194 | the app name is read from the backend |
| `Notifier.DesktopNotifier.SetAppName` | src/desktop_notifier/main.py:196-199 | the new app name is written through to the backend; the flag, cache and call counts are unchanged |
| `Notifier.DesktopNotifier.RequestAuthorisation` | src/desktop_notifier/main.py:201-214 | sets the flag, always forwards once to the backend, and returns the backend's answer unchanged |
| `Notifier.DesktopNotifier.HasAuthorisation` | src/desktop_notifier/main.py:216-218 | forwards once and returns the backend's answer; the flag and cache are untouched |
| `Notifier.DesktopNotifier.SendNotification` | src/desktop_notifier/main.py:220-242 | fills in the default icon only when there is none, asks for authorisation only if the flag was false, sends exactly once, and returns the same object; if the backend accepted it, it has an identifier and is shown; if refused, it keeps the identifier it had before, so "has an identifier exactly when accepted" holds only for a notification never sent before |
| `Notifier.DesktopNotifier.Send` | src/desktop_notifier/main.py:244-289 | returns a new notification carrying the given fields and the defaulted icon, sent under the rules of `SendNotification`; being new, it has an identifier exactly when the backend accepted it |
| `Notifier.DesktopNotifier.CurrentNotifications` | src/desktop_notifier/main.py:337-340 | returns the backend's list of shown notifications unchanged |
| `Notifier.DesktopNotifier.Clear` | src/desktop_notifier/main.py:342-348 | forwards to the backend, which then no longer shows the notification |
| `Notifier.DesktopNotifier.ClearAll` | src/desktop_notifier/main.py:350-355 | forwards to the backend, which then shows nothing |
| `Notifier.DesktopNotifier.GetCapabilities` | src/desktop_notifier/main.py:357-363 | answers from the cache without a backend call unless it is None or empty; otherwise queries once and caches and returns the answer, even an empty one |
| `Notifier.DesktopNotifier.Model` | src/desktop_notifier/main.py:170-176 | the abstract state of a notifier: `_did_request_authorisation`, `_capabilities` and the backend's call counts |
| `Notifier.SendTwice` | src/desktop_notifier/main.py:220-289 | a client: after `send_notification` then `send` on a fresh notifier, the backend was asked for authorisation once and received two sends |
| `Notifier.QueryCapabilitiesTwice` | src/desktop_notifier/main.py:357-363 | a client: a second `get_capabilities` returns the first non-empty answer without a query, and queries again after an empty one |

## Findings

| source | as written | input that shows it | evidently intended | confidence | as-written member | corrected member |
|---|---|---|---|---|---|---|
| src/desktop_notifier/main.py:154 | `parse.urlparse(app_icon).hostname != ""` decides between a URI icon and a named icon, but `hostname` is `None` or a non-empty string, never `""`, so the test always holds | `DesktopNotifier(app_icon="dialog-information")`: hostname is `None`, and the string becomes `Icon(uri="dialog-information")` | as the docstring at main.py:129-131 says, a URI string becomes a URI icon and a theme name becomes a named icon; the corrected model tests whether the string has a URI scheme, so `file:///…` without a host stays a URI | medium; not executed; rests on CPython's `urlparse` returning `None` for a missing or empty host | `Notifications.CoerceAppIconAsWritten` (shown by `Notifications.AsWrittenNeverNamesAnIcon`, `Notifications.ThemeNameTakenForUri`) | `Notifications.CoerceAppIcon` (proved by `Notifications.CoerceAppIconClassifies`, `Notifications.CorrectedExamples`; used by `Notifier.DesktopNotifier.constructor`) |

## Left out

- `_run_coro_sync`, `send_sync` and the private event loop (main.py:62, 174, 178-189, 291-335): these concern asyncio event loops and threads. The async methods are modelled as ordinary sequential methods.
- Logging and deprecation warnings (main.py:80-91, 149-165, 315-319): they are side effects with no state. This includes the selector's warnings about an unsigned bundle, a missing bundle and an old macOS.
- Parsing of version strings: `Version(platform.version())` can raise on a malformed string. Versions are given here as already-parsed release segments. Epochs and pre-, post-, dev- and local-release parts are not modelled.
- The URL parser: for a string `app_icon`, the `scheme` and `hostname` that `urlparse` reports are inputs (`IconString.scheme`, `IconString.host`), not computed.
- Notifier.DesktopNotifier.constructor: for a string `app_icon` it stores the corrected coercion (`Notifications.CoerceAppIcon`), not the code as written. A string without a URI scheme, such as "dialog-information", becomes a named icon, where main.py:154-155 stores `Icon(uri=…)`. A URI without a host, such as `file:///usr/share/icons/app.png`, stays a URI icon. For an `Icon`, `None` or a path it stores exactly what the written code does.
- The native backends and the package's `base` module are not part of this model. The backend is represented only by its contract, with arbitrary answers. These are not modelled: which and how many notifications a limit evicts (only that the oldest go first), callback delivery, the coercions inside `Notification` (string icons and attachments, `sound=True`), and the exact `Capability` enumeration (the model uses seven representative features).
- Default argument values (`app_name="Python"`, `app_icon=DEFAULT_ICON`, `urgency=Normal`, `timeout=-1`): callers pass every argument explicitly.
- Notification callbacks (`on_clicked`, `on_dismissed`, button and reply handlers): they run only inside the native backends.
- `src/desktop_notifier/__init__.py`: it holds re-exports and version metadata only.
- `Notifier.DesktopNotifier.GetAppName`: Python's `app_name` property getter is modelled as a method.
