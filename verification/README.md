# Sunshine watch face engine, modelled in Dafny

This project models the engine of the Sunshine digital watch face
(`SunshineWatchFace.Engine`). The face shows the time, the date and, in this
variant, the weather received from the paired phone. The engine's logic is
modelled as pure functions over an immutable engine-state record, with no
Android types. It has four parts:

- **Weather icon mapping** (`WeatherIcon`). An OpenWeatherMap condition code
  is mapped to a bundled drawable by an ordered chain of inclusive ranges. The
  first match wins. The chain is checked against an independent ordered table
  of rows, and first-match semantics is proved for the table. Code 0 loads no
  bitmap. Every other code is decoded. A nonzero code that no range covers is
  decoded with resource id 0. That yields no bitmap, and scaling it throws. The
  model reports this as the explicit outcome `UnmappedNonZero`.
- **Update timer** (`TickDelay`, `WatchEngine`, `TimerProperties`). The
  engine's handler queue is a sequence of update-time messages. `updateTimer`
  removes every pending message and posts one only while the face is visible
  and interactive. A delivered tick always redraws. It re-arms with the delay
  `1000 - now % 1000`, where `%` is Java's truncating remainder. The proofs
  show that at most one message is ever pending. Unless the engine is torn down
  or lost, a message is pending exactly when the face is visible and not
  ambient. Each re-armed tick lands on a second boundary.
- **Registration guard** (`WatchEngine`, `RegistrationProperties`). A flag
  makes registering and unregistering the time-zone receiver idempotent.
  Connecting, disconnecting and listener changes go to an append-only log of
  host calls. Over any run of callbacks, the receiver has been registered one
  time more than it was unregistered exactly while the flag is set.
- **Weather ingestion and persistence** (`Preferences`, `WatchEngine`,
  `SyncProperties`). A change notification is a sequence of
  (path, high, low, code) items. Only items under `/weather_update` count. Each
  one overwrites the displayed triple and reloads the bitmap. It then writes
  exactly the three values under `pref_temp_high`, `pref_temp_low` and
  `pref_weather_icon_id`. The last such item wins. A later start-up reads the
  same triple back. A store that was never written reads as `""`, `""`, `0`.

`ClockText` models the time string
`String.format(Locale.getDefault(), "%02d:%02d", hour, minute)` for an hour and
a minute, in a locale whose digits are ASCII.

Every host callback is a function from engine to engine. A callback that can
throw returns `Step`: either `Ok(engine)` or `Threw(engine)`, where
`Threw` holds the engine as it was when the exception escaped.

Two edge cases of the icon chain shape the model:

- The storm test `code == 761 || code == 781` comes after the fog range
  701–761, so 761 shows fog and the storm test fires only for 781.
- Any nonzero code is decoded, so an uncovered code such as 900 throws instead
  of showing no icon. `onDataChanged` throws after the in-memory fields are set
  and before the store is written. Later items in the same notification are
  not processed. `onCreate` throws when the stored code is uncovered. Because a
  throwing item is never stored, an update can never leave a store that makes
  the next start throw (`SyncProperties.UpdatesKeepStoreSafe`).

## Model

| member | source | states |
|---|---|---|
| WeatherIcon.ResourceFor | sunshinewatchface/src/main/java/com/example/android/sunshine/app/SunshineWatchFace.java:357-380 | Each drawable is chosen exactly for its codes: storm for 200–232 and 781, fog for 701–761 (so 761 is fog), rain for 500–504 and 520–531, snow for 511 and 600–622, and so on; no other code has a drawable |
| WeatherIcon.FirstMatchIsFirst | sunshinewatchface/src/main/java/com/example/android/sunshine/app/SunshineWatchFace.java:358-380 | Evaluating an ordered range table returns the icon of a matching row with no matching row before it, and nothing exactly when no row matches |
| WeatherIcon.ChainAgreesWithTable | sunshinewatchface/src/main/java/com/example/android/sunshine/app/SunshineWatchFace.java:358-380 | The if/else-if chain and the ordered table of twelve rows give the same result for every code |
| WeatherIcon.StormFor761IsShadowed | sunshinewatchface/src/main/java/com/example/android/sunshine/app/SunshineWatchFace.java:370-373 | The exact-value storm row for 761 is shadowed by the earlier fog range, and a storm result outside 200–232 only comes from 781 |
| WeatherIcon.LoadBitmap | sunshinewatchface/src/main/java/com/example/android/sunshine/app/SunshineWatchFace.java:355-387 | No bitmap exactly for code 0; an uncovered nonzero code is the failing decode; otherwise the bitmap of the drawable the chain chose |
| WeatherIcon.LoadFailsExactlyOffTable | sunshinewatchface/src/main/java/com/example/android/sunshine/app/SunshineWatchFace.java:381-386 | Loading fails exactly for a nonzero code that no table row matches, and a loaded bitmap is the table's first match |
| TickDelay.JavaRem | sunshinewatchface/src/main/java/com/example/android/sunshine/app/SunshineWatchFace.java:415-416 | Java's remainder: quotient times divisor plus remainder gives the dividend, and the remainder takes the dividend's sign |
| TickDelay.NextTickDelay | sunshinewatchface/src/main/java/com/example/android/sunshine/app/SunshineWatchFace.java:414-416 | The delay takes the clock to the next multiple of one second above Java's truncated quotient of now by 1000 |
| TickDelay.DelayAlignsToSecond | sunshinewatchface/src/main/java/com/example/android/sunshine/app/SunshineWatchFace.java:414-417 | For a clock at or after the epoch the delay is between 1 and 1000 ms, and now plus the delay is a multiple of 1000 |
| TickDelay.DelayBeforeEpoch | sunshinewatchface/src/main/java/com/example/android/sunshine/app/SunshineWatchFace.java:414-417 | Before the epoch the delay is between 1000 and 1999 ms, and the tick still lands on a second boundary |
| ClockText.TwoDigits | sunshinewatchface/src/main/java/com/example/android/sunshine/app/SunshineWatchFace.java:333-334 | Zero-padding yields exactly two ASCII digits |
| ClockText.Clock | sunshinewatchface/src/main/java/com/example/android/sunshine/app/SunshineWatchFace.java:333-334 | The time text is five characters with a colon in the middle |
| ClockText.ClockRoundTrip | sunshinewatchface/src/main/java/com/example/android/sunshine/app/SunshineWatchFace.java:333-334 | The time text reads back as the hour and minute it was made from |
| ClockText.ClockExample | sunshinewatchface/src/main/java/com/example/android/sunshine/app/SunshineWatchFace.java:333-334 | 03:07 is rendered as "03:07" |
| Preferences.GetString | sunshinewatchface/src/main/java/com/example/android/sunshine/app/SunshineWatchFace.java:150-151 | A string read of a missing key gives the default; a string read of a long entry fails; otherwise the stored string |
| Preferences.GetLong | sunshinewatchface/src/main/java/com/example/android/sunshine/app/SunshineWatchFace.java:152 | A long read of a missing key gives the default; a long read of a string entry fails; otherwise the stored long |
| Preferences.ReadWeather | sunshinewatchface/src/main/java/com/example/android/sunshine/app/SunshineWatchFace.java:149-152 | The start-up read fails exactly when one of the three keys holds the wrong kind of value; otherwise each field is the stored value, or "", "" and 0 for a missing key |
| Preferences.PutWeather | sunshinewatchface/src/main/java/com/example/android/sunshine/app/SunshineWatchFace.java:457-462 | The write puts the two temperatures as strings and the code as a long under the three keys, and leaves every other key unchanged |
| Preferences.ReadAfterPut | sunshinewatchface/src/main/java/com/example/android/sunshine/app/SunshineWatchFace.java:149-152 | A start-up read after a write returns the triple written, whatever the store held before |
| Preferences.ReadEmptyStore | sunshinewatchface/src/main/java/com/example/android/sunshine/app/SunshineWatchFace.java:149-152 | A store never written reads as "", "" and 0 |
| Preferences.PutOverwrites | sunshinewatchface/src/main/java/com/example/android/sunshine/app/SunshineWatchFace.java:457-462 | A second write replaces the first completely, with no merge |
| WatchEngine.Create | sunshinewatchface/src/main/java/com/example/android/sunshine/app/SunshineWatchFace.java:149-176 | Creation succeeds exactly when the stored entries have the right types and the stored code's bitmap loads; the engine then shows the stored triple, holds a bitmap exactly for a nonzero code, and starts hidden, interactive, unregistered and with no timer |
| WatchEngine.Invalidate | sunshinewatchface/src/main/java/com/example/android/sunshine/app/SunshineWatchFace.java:412 | A redraw request adds one to the redraw count and changes nothing else |
| WatchEngine.OnDestroy | sunshinewatchface/src/main/java/com/example/android/sunshine/app/SunshineWatchFace.java:193-196 | Teardown removes every pending update message and changes nothing else |
| WatchEngine.UpdateTimer | sunshinewatchface/src/main/java/com/example/android/sunshine/app/SunshineWatchFace.java:393-406 | After re-evaluation exactly one update message with no delay is pending if the face is visible and not ambient (the condition `shouldTimerBeRunning` tests), none otherwise, and nothing else changes |
| WatchEngine.HandleUpdateTimeMessage | sunshinewatchface/src/main/java/com/example/android/sunshine/app/SunshineWatchFace.java:411-419 | A tick always redraws, and appends one message with the next-second delay exactly when the timer should run |
| WatchEngine.DeliverUpdate | sunshinewatchface/src/main/java/com/example/android/sunshine/app/SunshineWatchFace.java:476-485 | Delivery consumes the head message; with the engine alive it redraws once and re-arms one message exactly when the timer should run; with the engine gone nothing else happens |
| WatchEngine.RegisterReceiver | sunshinewatchface/src/main/java/com/example/android/sunshine/app/SunshineWatchFace.java:233-241 | Registering when already registered changes nothing; otherwise it sets the flag and logs the receiver registration followed by a connect |
| WatchEngine.UnregisterReceiver | sunshinewatchface/src/main/java/com/example/android/sunshine/app/SunshineWatchFace.java:243-251 | Unregistering when not registered changes nothing; otherwise it clears the flag and logs the unregistration, the listener removal and the disconnect |
| WatchEngine.OnVisibilityChanged | sunshinewatchface/src/main/java/com/example/android/sunshine/app/SunshineWatchFace.java:215-231 | After a visibility change the receiver is registered exactly when visible, the face redraws once when it becomes visible, and the timer is pending exactly when visible and interactive |
| WatchEngine.OnAmbientModeChanged | sunshinewatchface/src/main/java/com/example/android/sunshine/app/SunshineWatchFace.java:306-319 | The mode is recorded; a redraw happens only on a real change; anti-aliasing becomes the negated mode only on a real change on a low-bit display; the timer is re-evaluated in every case |
| WatchEngine.OnPropertiesChanged | sunshinewatchface/src/main/java/com/example/android/sunshine/app/SunshineWatchFace.java:294-297 | Only the low-bit-ambient property changes |
| WatchEngine.OnTimeTick | sunshinewatchface/src/main/java/com/example/android/sunshine/app/SunshineWatchFace.java:300-303 | The minute tick redraws once and changes nothing else |
| WatchEngine.OnTimeZoneChanged | sunshinewatchface/src/main/java/com/example/android/sunshine/app/SunshineWatchFace.java:111-117 | A time-zone broadcast redraws only while the receiver is registered |
| WatchEngine.OnConnected | sunshinewatchface/src/main/java/com/example/android/sunshine/app/SunshineWatchFace.java:422-427 | Connecting clears the error flag and adds the data listener |
| WatchEngine.OnConnectionFailed | sunshinewatchface/src/main/java/com/example/android/sunshine/app/SunshineWatchFace.java:434-444 | While the error flag is clear, a failure with a resolution reconnects and one without removes the listener |
| WatchEngine.OnDataChanged | sunshinewatchface/src/main/java/com/example/android/sunshine/app/SunshineWatchFace.java:447-465 | A notification changes only the displayed weather and the store |
| TimerProperties.UpdateTimerIdempotent | sunshinewatchface/src/main/java/com/example/android/sunshine/app/SunshineWatchFace.java:393-398 | Re-evaluating the timer twice gives the same state as once, and that state is consistent, so no duplicate timer is posted |
| TimerProperties.CreateStartsStopped | sunshinewatchface/src/main/java/com/example/android/sunshine/app/SunshineWatchFace.java:88 | A new engine has no pending update message and is consistent |
| TimerProperties.ApplyKeepsTimerSound | sunshinewatchface/src/main/java/com/example/android/sunshine/app/SunshineWatchFace.java:393-419 | No callback makes more than one update message pending, or leaves one pending when the timer should not run |
| TimerProperties.RunKeepsTimerSound | sunshinewatchface/src/main/java/com/example/android/sunshine/app/SunshineWatchFace.java:393-419 | Over any sequence of callbacks, at most one update message is pending, and only while the timer should run |
| TimerProperties.ApplyKeepsTimerExact | sunshinewatchface/src/main/java/com/example/android/sunshine/app/SunshineWatchFace.java:404-406 | Every callback except teardown and a lost-engine delivery keeps a message pending exactly when visible and interactive |
| TimerProperties.TimerRunsIffVisibleAndInteractive | sunshinewatchface/src/main/java/com/example/android/sunshine/app/SunshineWatchFace.java:404-406 | After any sequence of callbacks without teardown or lost-engine delivery, the timer runs exactly when the latest state is visible and not ambient |
| TimerProperties.TickReArmsOnSecondBoundary | sunshinewatchface/src/main/java/com/example/android/sunshine/app/SunshineWatchFace.java:411-419 | Delivering the single pending tick redraws, leaves exactly one message with the next-second delay when the timer should run and none otherwise, and that delay lands on a second boundary |
| RegistrationProperties.RegistrationIdempotent | sunshinewatchface/src/main/java/com/example/android/sunshine/app/SunshineWatchFace.java:233-251 | A second register or unregister in a row changes nothing |
| RegistrationProperties.ApplyKeepsReceiverBalanced | sunshinewatchface/src/main/java/com/example/android/sunshine/app/SunshineWatchFace.java:233-251 | No callback breaks the balance: registrations equal unregistrations plus one exactly while the flag is set |
| RegistrationProperties.RunKeepsReceiverBalanced | sunshinewatchface/src/main/java/com/example/android/sunshine/app/SunshineWatchFace.java:233-251 | The balance holds over any sequence of callbacks |
| RegistrationProperties.ReceiverRegisteredAtMostOnce | sunshinewatchface/src/main/java/com/example/android/sunshine/app/SunshineWatchFace.java:233-251 | From creation on, the receiver is never registered twice without an unregistration in between |
| SyncProperties.LastWeatherItemWins | sunshinewatchface/src/main/java/com/example/android/sunshine/app/SunshineWatchFace.java:447-465 | With every weather code covered, a notification does not throw; without weather items it changes nothing; otherwise the last item's triple and bitmap are shown and that triple alone is stored |
| SyncProperties.OtherPathsIgnored | sunshinewatchface/src/main/java/com/example/android/sunshine/app/SunshineWatchFace.java:450 | Items whose path is not /weather_update change nothing |
| SyncProperties.ThrowsIffUncovered | sunshinewatchface/src/main/java/com/example/android/sunshine/app/SunshineWatchFace.java:454-455 | A notification throws exactly when one of its weather items has a nonzero code with no drawable |
| SyncProperties.UpdatesKeepStoreSafe | sunshinewatchface/src/main/java/com/example/android/sunshine/app/SunshineWatchFace.java:454-462 | If the engine could start from the store before a notification, it can start from the store after it |
| SyncProperties.RestartShowsLastUpdate | sunshinewatchface/src/main/java/com/example/android/sunshine/app/SunshineWatchFace.java:149-152 | After a handled notification, a restart shows the same triple and bitmap as the running engine, namely the last weather item's |
| SyncProperties.FreshInstallDefaults | sunshinewatchface/src/main/java/com/example/android/sunshine/app/SunshineWatchFace.java:149-152 | On a fresh install the engine starts with empty temperatures, code 0 and no bitmap |

## Left out

- Drawing in `onDraw`: canvas, paints, typefaces and layout are host rendering. The icon is drawn only when a bitmap is held and the face is not ambient. That is a single condition on the state and is not modelled further.
- Bitmap decoding and the 70% scaling: these are floating-point library calls. A covered code is assumed to decode. An uncovered nonzero code is the `UnmappedNonZero` failure.
- `onApplyWindowInsets`: dimension lookups and float offsets chosen by the round/rectangular flag. Nothing there is beyond a resource lookup.
- The date string, `SimpleDateFormat`, `Calendar` and time-zone handling: these are locale and library behaviour. `Clock` takes the hour and the minute as inputs, and the time-zone receiver is modelled only as a redraw.
- GoogleApiClient, the Data API and the broadcast receiver: foreign services. They appear only as entries in the log of host calls.
- SharedPreferences I/O: the store is an in-memory map, and `apply()` takes effect at once.
- The WeakReference in `EngineHandler`: modelled as the `engineAlive` flag of a delivery.
- Other handler message kinds: only the update-time message is ever posted.
- `setWatchFaceStyle`, paint creation in `onCreate`, and the dead `createFullDateTextPaint`, the duplicate date `drawText` and the commented-out calls: these are host configuration or residue.
- Weather codes are Java longs. The model uses unbounded integers. The code only compares them, so nothing wraps.
- The re-arm delay: the clock is a Java long. Overflow near the long range limit is not modelled.
- A weather item with no `weather_id` field reads its code as 0 (`getLong` on a primitive long). In the model that is the item with code 0: no bitmap, and 0 stored. A missing `high_temp` or `low_temp` reads as null. Null temperature strings fall outside the model, whose strings are always present.
- The handler queue is delivered first-in-first-out, whenever the host chooses, and a message's delay is not enforced. Android orders messages by due time. This makes no difference here, because at most one message is ever pending (`TimerProperties.RunKeepsTimerSound`).
- ClockText.Clock: always produces ASCII digits. The code formats with `Locale.getDefault()`, whose digits can differ (Arabic-Indic digits, for example). The model matches only in locales whose zero digit is '0'.
- ClockText.TwoDigits: always produces ASCII digits for `%02d`. The locale's own digits are not modelled, for the same reason as `ClockText.Clock`.
- `mResolvingError` is never set to true anywhere in the code, so the guard in `onConnectionFailed` is always open. The model keeps the flag as written.
